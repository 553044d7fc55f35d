/*
 * The refinement server (`/refine` and its background variant): the
 * refinement level and the instruction tier it selects, stripping a markdown
 * fence from the model's reply, the text normalisation fed to the word diff,
 * rendering the diff parts as HTML, and the merges that write job records.
 * The job-page fetch, the two model calls and the word diff itself are
 * external: their results are parameters.
 */
module Refine {
  import opened Js
  import Storage

  // ---------------------------------------------------------------------------
  // Level and tier
  // ---------------------------------------------------------------------------

  /** The refinement level used for a request: 5 when the field is missing
      or null; otherwise the parsed value when it lies in [1, 10], and 5 when
      it is not a number or out of range. */
  function ParseLevel(v: JsValue): (level: int)
    ensures 1 <= level <= 10
    ensures v == Undefined || v == Null ==> level == 5
    ensures v != Undefined && v != Null && ParseInt(v).Some? && 1 <= ParseInt(v).value <= 10 ==>
      level == ParseInt(v).value
    ensures !(ParseInt(v).Some? && 1 <= ParseInt(v).value <= 10) ==> level == 5
  {
    if v == Undefined || v == Null then 5
    else
      match ParseInt(v)
      case Some(n) => if 1 <= n <= 10 then n else 5
      case None => 5
  }

  /** Examples: a numeric string is read. */
  lemma ParseLevelOfNumeral()
    ensures ParseLevel(Str("3")) == 3
  {
    ParseIntOfDigits("3");
    assert DigitsValue("3") == 3 by {
      assert "3"[..0] == "";
    }
  }

  /** A number outside [1, 10] falls back to 5; one inside is kept. */
  lemma ParseLevelOfNumber(n: int)
    ensures 1 <= n <= 10 ==> ParseLevel(Num(n)) == n
    ensures !(1 <= n <= 10) ==> ParseLevel(Num(n)) == 5
  {
    ParseIntOfNumber(n);
  }

  datatype Tier = Minimal | Moderate | Strong

  /** The instruction tier: up to 3 minimal, up to 7 moderate, above that strong. */
  function TierOf(level: int): (t: Tier)
    ensures t == Minimal <==> level <= 3
    ensures t == Moderate <==> 3 < level <= 7
    ensures t == Strong <==> level > 7
  {
    if level <= 3 then Minimal else if level <= 7 then Moderate else Strong
  }

  /** The additional instruction appended to the refinement prompt. */
  function Instruction(t: Tier): string {
    match t
    case Minimal => "Make only minimal changes."
    case Moderate => "Make moderate refinements."
    case Strong => "Apply strong, aggressive refinements tailored to the job description."
  }

  // ---------------------------------------------------------------------------
  // Markdown fence removal
  // ---------------------------------------------------------------------------

  const Fence := "```"

  /** Position `p` starts a line (the `^` anchor in multiline mode). */
  predicate IsLineStart(s: string, p: nat)
    requires p <= |s|
  {
    p == 0 || IsLineTerminator(s[p - 1])
  }

  /** The end of the greedy `\w*` run starting at `i`. */
  function WordRunEnd(s: string, i: nat): (j: nat)
    requires i <= |s|
    ensures i <= j <= |s|
    ensures forall k :: i <= k < j ==> IsWordChar(s[k])
    ensures j < |s| ==> !IsWordChar(s[j])
    decreases |s| - i
  {
    if i < |s| && IsWordChar(s[i]) then WordRunEnd(s, i + 1) else i
  }

  /** The end of the greedy `\s*` run starting at `i`. */
  function SpaceRunEnd(s: string, i: nat): (j: nat)
    requires i <= |s|
    ensures i <= j <= |s|
    ensures forall k :: i <= k < j ==> IsSpace(s[k])
    ensures j < |s| ==> !IsSpace(s[j])
    decreases |s| - i
  {
    if i < |s| && IsSpace(s[i]) then SpaceRunEnd(s, i + 1) else i
  }

  /** The last line feed in `s[i..j]`. */
  function LastLineFeed(s: string, i: nat, j: nat): (k: Option<nat>)
    requires i <= j <= |s|
    ensures k.Some? ==> i <= k.value < j && s[k.value] == '\n'
    ensures k.Some? ==> forall m :: k.value < m < j ==> s[m] != '\n'
    ensures k.None? ==> forall m :: i <= m < j ==> s[m] != '\n'
    decreases j - i
  {
    if i == j then None
    else if s[j - 1] == '\n' then Some(j - 1)
    else LastLineFeed(s, i, j - 1)
  }

  /** The largest `q` in `[i, j]` where `$` matches in multiline mode. */
  function LastLineEnd(s: string, i: nat, j: nat): (q: Option<nat>)
    requires i <= j <= |s|
    ensures q.Some? ==> i <= q.value <= j && (q.value == |s| || IsLineTerminator(s[q.value]))
    decreases j - i
  {
    if j == |s| || IsLineTerminator(s[j]) then Some(j)
    else if i == j then None
    else LastLineEnd(s, i, j - 1)
  }

  /** Where a match of `^```\w*\s*\n` starting at `p` ends. The greedy `\w*`
      never gives characters back (a word character cannot start `\s*\n`), so
      the match ends just after the last line feed of the white-space run. */
  function OpenFenceAt(s: string, p: nat): Option<nat>
    requires p <= |s|
  {
    if IsLineStart(s, p) && Fence <= s[p..] then
      var w := WordRunEnd(s, p + 3);
      match LastLineFeed(s, w, SpaceRunEnd(s, w))
      case Some(k) => Some(k + 1)
      case None => None
    else None
  }

  /** Where a match of `\n```\s*$` starting at `p` ends. */
  function CloseFenceAt(s: string, p: nat): Option<nat>
    requires p <= |s|
  {
    if p + 4 <= |s| && s[p] == '\n' && s[p + 1..p + 4] == Fence then
      LastLineEnd(s, p + 4, SpaceRunEnd(s, p + 4))
    else None
  }

  /** A match found by scanning from the left: its start and end. */
  datatype Match = Match(start: nat, end: nat)

  function FindOpenFence(s: string, p: nat): (m: Option<Match>)
    requires p <= |s|
    ensures m.Some? ==> p <= m.value.start <= m.value.end <= |s|
    decreases |s| - p
  {
    match OpenFenceAt(s, p)
    case Some(e) =>
      assert p + 3 <= e <= |s| by {
        var w := WordRunEnd(s, p + 3);
        assert LastLineFeed(s, w, SpaceRunEnd(s, w)).Some?;
      }
      Some(Match(p, e))
    case None => if p < |s| then FindOpenFence(s, p + 1) else None
  }

  function FindCloseFence(s: string, p: nat): (m: Option<Match>)
    requires p <= |s|
    ensures m.Some? ==> p <= m.value.start <= m.value.end <= |s|
    decreases |s| - p
  {
    match CloseFenceAt(s, p)
    case Some(e) => Some(Match(p, e))
    case None => if p < |s| then FindCloseFence(s, p + 1) else None
  }

  /** `String.prototype.replace` with a non-global pattern and '' as replacement. */
  function RemoveMatch(s: string, m: Option<Match>): (r: string)
    requires m.Some? ==> m.value.start <= m.value.end <= |s|
    ensures |r| <= |s|
  {
    match m
    case None => s
    case Some(Match(a, b)) => s[..a] + s[b..]
  }

  /** `removeMarkdownWrapper`: falsy text gives ''; text not starting with
      three backticks is returned unchanged; otherwise the first opening fence
      line (with its language tag) and then the first closing fence are removed. */
  function RemoveMarkdownWrapper(text: string): (r: string)
    ensures text == "" ==> r == ""
    ensures !(Fence <= text) ==> r == text
    ensures |r| <= |text|
  {
    if text == "" then ""
    else if Fence <= text then
      var cleaned := RemoveMatch(text, FindOpenFence(text, 0));
      RemoveMatch(cleaned, FindCloseFence(cleaned, 0))
    else text
  }

  /** No closing fence starts inside a body that contains no line feed
      followed by three backticks, even when the fence is appended. */
  lemma NoCloseFenceInside(body: string, p: nat)
    requires p < |body|
    requires !Contains(body, "\n```")
    ensures CloseFenceAt(body + "\n```", p).None?
  {
    var c := body + "\n```";
    if p + 4 <= |body| {
      assert c[p..p + 4] == body[p..p + 4];
      if body[p..p + 4] == "\n```" {
        OccursAtContains(body, "\n```", p);
      }
    } else {
      assert c[|body|] == '\n';
      assert c[p + 1..p + 4][|body| - p - 1] == c[|body|];
    }
  }

  /** The first closing fence in a body with none of its own, followed by
      one, is the appended one. */
  lemma {:induction false} CloseFenceFoundAtEnd(body: string, p: nat)
    requires p <= |body|
    requires !Contains(body, "\n```")
    ensures FindCloseFence(body + "\n```", p) == Some(Match(|body|, |body| + 4))
    decreases |body| - p
  {
    var c := body + "\n```";
    if p == |body| {
      assert c[p..] == "\n```";
      assert SpaceRunEnd(c, p + 4) == |c|;
    } else {
      NoCloseFenceInside(body, p);
      CloseFenceFoundAtEnd(body, p + 1);
    }
  }

  /** Wrapping a body in a fenced block (optional language tag) and removing
      the wrapper gives the body back, when the body starts with a visible
      character and contains no fence of its own. */
  lemma {:induction false} FenceRoundTrip(lang: string, body: string)
    requires forall i :: 0 <= i < |lang| ==> IsWordChar(lang[i])
    requires |body| > 0 && !IsSpace(body[0])
    requires !Contains(body, "\n```")
    ensures RemoveMarkdownWrapper(Fence + lang + "\n" + body + "\n```") == body
  {
    var s := Fence + lang + "\n" + body + "\n```";
    var w := 3 + |lang|;
    assert s[w] == '\n';
    assert s[w + 1] == body[0];
    assert WordRunEnd(s, 3) == w;
    assert SpaceRunEnd(s, w) == w + 1;
    assert LastLineFeed(s, w, w + 1) == Some(w);
    assert Fence <= s[0..];
    assert OpenFenceAt(s, 0) == Some(w + 1);
    var cleaned := s[..0] + s[w + 1..];
    assert cleaned == body + "\n```";
    CloseFenceFoundAtEnd(body, 0);
    assert cleaned[..|body|] + cleaned[|body| + 4..] == body;
  }

  // ---------------------------------------------------------------------------
  // Normalisation before diffing
  // ---------------------------------------------------------------------------

  /** No `<` is followed, anywhere later, by a `>`: nothing tag-like is left. */
  predicate NoTag(s: string) {
    forall i, j :: 0 <= i < j < |s| && s[i] == '<' ==> s[j] != '>'
  }

  /** Every character of `r` is a space or a character of `s`. */
  predicate DrawnFrom(r: string, s: string) {
    forall k :: 0 <= k < |r| ==> r[k] == ' ' || r[k] in s
  }

  /** Only the plain space represents white space, and never twice in a row. */
  predicate SingleSpaced(s: string) {
    && (forall k :: 0 <= k < |s| && IsSpace(s[k]) ==> s[k] == ' ')
    && (forall k :: 0 <= k < |s| - 1 ==> !(IsSpace(s[k]) && IsSpace(s[k + 1])))
  }

  /** The index of the first `>` at or after `i`. */
  function NextClose(s: string, i: nat): (j: nat)
    requires i <= |s| && '>' in s[i..]
    ensures i <= j < |s| && s[j] == '>'
    decreases |s| - i
  {
    if s[i] == '>' then i
    else
      assert s[i..] == [s[i]] + s[i + 1..];
      NextClose(s, i + 1)
  }

  /** `s.replace(/<[^>]*>/g, ' ')`: each `<` that has a later `>` starts a
      tag running to the first such `>`, which is replaced by one space. */
  function StripTags(s: string): string
    decreases |s|
  {
    if s == [] then []
    else if s[0] == '<' && '>' in s[1..] then " " + StripTags(s[NextClose(s, 1) + 1..])
    else [s[0]] + StripTags(s[1..])
  }

  /** A string drawn from a suffix of `s` is drawn from `s`. */
  lemma DrawnFromSuffix(r: string, s: string, i: nat)
    requires i <= |s| && DrawnFrom(r, s[i..])
    ensures DrawnFrom(r, s)
  {
    forall k | 0 <= k < |r| && r[k] != ' '
      ensures r[k] in s
    {
      var m :| 0 <= m < |s[i..]| && s[i..][m] == r[k];
      assert s[i + m] == r[k];
    }
  }

  /** Stripping leaves nothing tag-like and adds only spaces. */
  lemma {:induction false} StripTagsSound(s: string)
    ensures NoTag(StripTags(s))
    ensures DrawnFrom(StripTags(s), s)
    decreases |s|
  {
    if s == [] {
    } else if s[0] == '<' && '>' in s[1..] {
      var j := NextClose(s, 1);
      StripTagsSound(s[j + 1..]);
      DrawnFromSuffix(StripTags(s[j + 1..]), s, j + 1);
    } else {
      var rest := StripTags(s[1..]);
      StripTagsSound(s[1..]);
      DrawnFromSuffix(rest, s, 1);
      if s[0] == '<' {
        forall k | 0 <= k < |rest|
          ensures rest[k] != '>'
        {
          if rest[k] != ' ' {
            var m :| 0 <= m < |s[1..]| && s[1..][m] == rest[k];
          }
        }
      }
      assert StripTags(s) == [s[0]] + rest;
    }
  }

  /** `NextClose` finds the first `>`: any `>` with none before it from `i` on. */
  lemma {:induction false} NextCloseIsFirst(s: string, i: nat, j: nat)
    requires i <= j < |s| && s[j] == '>'
    requires forall k :: i <= k < j ==> s[k] != '>'
    ensures '>' in s[i..] && NextClose(s, i) == j
    decreases j - i
  {
    assert s[i..][j - i] == s[j];
    if i < j {
      NextCloseIsFirst(s, i + 1, j);
    }
  }

  /** Text without a tag is left as it is. */
  lemma {:induction false} StripTagsOfTagFree(s: string)
    requires NoTag(s)
    ensures StripTags(s) == s
    decreases |s|
  {
    if s != [] {
      NoTagSuffix(s, 1);
      StripTagsOfTagFree(s[1..]);
      if s[0] == '<' {
        forall m | 0 <= m < |s[1..]|
          ensures s[1..][m] != '>'
        {
          assert s[1..][m] == s[1 + m];
        }
      }
      assert s == [s[0]] + s[1..];
    }
  }

  /** Stripping changes text exactly when it holds a tag. */
  lemma StripTagsFixedIff(s: string)
    ensures StripTags(s) == s <==> NoTag(s)
  {
    StripTagsSound(s);
    if NoTag(s) {
      StripTagsOfTagFree(s);
    }
  }

  /** A leading tag becomes exactly one space. */
  lemma StripTagsLeadingTag(t: string, u: string)
    requires '>' !in t
    ensures StripTags("<" + t + ">" + u) == " " + StripTags(u)
  {
    var w := "<" + t + ">" + u;
    assert w[1 + |t|] == '>';
    forall k | 1 <= k < 1 + |t|
      ensures w[k] != '>'
    {
      assert w[k] == t[k - 1];
    }
    NextCloseIsFirst(w, 1, 1 + |t|);
    assert w[2 + |t|..] == u;
  }

  /** A tag after text without `<` becomes exactly one space: the text
      before it is kept and stripping goes on after the tag. */
  lemma {:induction false} StripTagsFirstTag(s: string, t: string, u: string)
    requires '<' !in s && '>' !in t
    ensures StripTags(s + "<" + t + ">" + u) == s + " " + StripTags(u)
    decreases |s|
  {
    if s == [] {
      assert s + "<" + t + ">" + u == "<" + t + ">" + u;
      StripTagsLeadingTag(t, u);
    } else {
      var w := s + "<" + t + ">" + u;
      var rest := s[1..] + "<" + t + ">" + u;
      assert w == [s[0]] + rest;
      StripTagsFirstTag(s[1..], t, u);
      assert StripTags(w) == [s[0]] + StripTags(rest);
      assert s == [s[0]] + s[1..];
    }
  }

  /** `s.replace(/\s+/g, ' ')`. */
  function CollapseSpaces(s: string): string
    decreases |s|
  {
    if s == [] then []
    else if IsSpace(s[0]) && |s| > 1 && IsSpace(s[1]) then CollapseSpaces(s[1..])
    else [if IsSpace(s[0]) then ' ' else s[0]] + CollapseSpaces(s[1..])
  }

  /** A suffix of a tag-free string is tag-free. */
  lemma NoTagSuffix(s: string, i: nat)
    requires i <= |s| && NoTag(s)
    ensures NoTag(s[i..])
  {
    forall a, b | 0 <= a < b < |s[i..]| && s[i..][a] == '<'
      ensures s[i..][b] != '>'
    {
      assert s[i + a] == '<';
    }
  }

  /** Collapsing leaves single plain spaces, keeps the first character (a
      space run becomes ' '), adds only spaces and keeps text tag-free. */
  lemma {:induction false} CollapseSpacesSound(s: string)
    ensures SingleSpaced(CollapseSpaces(s))
    ensures DrawnFrom(CollapseSpaces(s), s)
    ensures |s| > 0 ==> |CollapseSpaces(s)| > 0 && CollapseSpaces(s)[0] == (if IsSpace(s[0]) then ' ' else s[0])
    ensures NoTag(s) ==> NoTag(CollapseSpaces(s))
    decreases |s|
  {
    if s != [] {
      var rest := CollapseSpaces(s[1..]);
      CollapseSpacesSound(s[1..]);
      DrawnFromSuffix(rest, s, 1);
      if NoTag(s) {
        NoTagSuffix(s, 1);
      }
      if IsSpace(s[0]) && |s| > 1 && IsSpace(s[1]) {
        assert CollapseSpaces(s) == rest;
      } else {
        var head := if IsSpace(s[0]) then ' ' else s[0];
        assert CollapseSpaces(s) == [head] + rest;
        if NoTag(s) && s[0] == '<' {
          forall k | 0 <= k < |rest|
            ensures rest[k] != '>'
          {
            if rest[k] != ' ' {
              var m :| 0 <= m < |s[1..]| && s[1..][m] == rest[k];
              assert s[1 + m] == rest[k];
            }
          }
        }
      }
    }
  }

  /** Text that is already single-spaced is left as it is. */
  lemma {:induction false} CollapseSpacesOfSingleSpaced(s: string)
    requires SingleSpaced(s)
    ensures CollapseSpaces(s) == s
    decreases |s|
  {
    if s != [] {
      var t := s[1..];
      forall k | 0 <= k < |t| - 1
        ensures !(IsSpace(t[k]) && IsSpace(t[k + 1]))
      {
        assert t[k] == s[k + 1] && t[k + 1] == s[k + 2];
      }
      CollapseSpacesOfSingleSpaced(t);
      if |s| > 1 {
        assert !(IsSpace(s[0]) && IsSpace(s[1]));
      }
      assert s == [s[0]] + t;
    }
  }

  /** A whole run of white space becomes a single space, and collapsing
      goes on after it. */
  lemma {:induction false} CollapseSpacesOfRun(w: string, u: string)
    requires |w| > 0 && forall k :: 0 <= k < |w| ==> IsSpace(w[k])
    requires u == [] || !IsSpace(u[0])
    ensures CollapseSpaces(w + u) == " " + CollapseSpaces(u)
    decreases |w|
  {
    var x := w + u;
    assert x[0] == w[0];
    assert x[1..] == w[1..] + u;
    if |w| > 1 {
      assert x[1] == w[1];
      CollapseSpacesOfRun(w[1..], u);
    } else {
      assert x[1..] == u;
    }
  }

  /** Taking a slice keeps a string tag-free and single-spaced. */
  lemma SliceKeepsShape(s: string, a: nat, b: nat)
    requires a <= b <= |s|
    requires NoTag(s) && SingleSpaced(s)
    ensures NoTag(s[a..b]) && SingleSpaced(s[a..b])
  {
    var t := s[a..b];
    forall i, j | 0 <= i < j < |t| && t[i] == '<'
      ensures t[j] != '>'
    {
      assert s[a + i] == '<';
      assert t[j] == s[a + j];
    }
    forall k | 0 <= k < |t| - 1
      ensures !(IsSpace(t[k]) && IsSpace(t[k + 1]))
    {
      assert t[k] == s[a + k] && t[k + 1] == s[a + k + 1];
    }
  }

  /** `normalize`: tags become spaces, white-space runs become one space,
      and the ends are trimmed. */
  function Normalize(s: string): string {
    Trim(CollapseSpaces(StripTags(s)))
  }

  /** The trimmed text is a slice of the original with no white space at
      either end; `a` is where it starts. */
  lemma TrimIsSlice(t: string) returns (a: nat)
    ensures a + |Trim(t)| <= |t| && Trim(t) == t[a..a + |Trim(t)|]
    ensures Trim(t) == [] || (!IsSpace(Trim(t)[0]) && !IsSpace(Trim(t)[|Trim(t)| - 1]))
  {
    var front := TrimStart(t);
    TrimStartSound(t);
    a := |t| - |front|;
    var r := TrimEnd(front);
    TrimEndSound(front);
    assert r == t[a..a + |r|];
    assert r != [] ==> r[0] == front[0];
  }

  /** Trimming a tag-free, single-spaced string keeps it so and leaves no
      white space at either end. */
  lemma TrimKeepsShape(t: string)
    requires NoTag(t) && SingleSpaced(t)
    ensures NoTag(Trim(t)) && SingleSpaced(Trim(t))
    ensures Trim(t) == [] || (!IsSpace(Trim(t)[0]) && !IsSpace(Trim(t)[|Trim(t)| - 1]))
  {
    var a := TrimIsSlice(t);
    SliceKeepsShape(t, a, a + |Trim(t)|);
  }

  /** The normalised text has no tags, single plain spaces and no white
      space at either end. */
  lemma NormalizeSound(s: string)
    ensures NoTag(Normalize(s)) && SingleSpaced(Normalize(s))
    ensures Normalize(s) == [] || (!IsSpace(Normalize(s)[0]) && !IsSpace(Normalize(s)[|Normalize(s)| - 1]))
  {
    StripTagsSound(s);
    CollapseSpacesSound(StripTags(s));
    TrimKeepsShape(CollapseSpaces(StripTags(s)));
  }

  /** Text with no white space at either end is not changed by trimming. */
  lemma TrimOfTrimmed(t: string)
    requires t == [] || (!IsSpace(t[0]) && !IsSpace(t[|t| - 1]))
    ensures Trim(t) == t
  {
    assert TrimStart(t) == t;
  }

  /** Text that already has the normalised shape is left as it is. */
  lemma NormalizeOfNormal(s: string)
    requires NoTag(s) && SingleSpaced(s)
    requires s == [] || (!IsSpace(s[0]) && !IsSpace(s[|s| - 1]))
    ensures Normalize(s) == s
  {
    StripTagsOfTagFree(s);
    CollapseSpacesOfSingleSpaced(s);
    TrimOfTrimmed(s);
  }

  /** Normalising twice is normalising once. */
  lemma NormalizeIdempotent(s: string)
    ensures Normalize(Normalize(s)) == Normalize(s)
  {
    NormalizeSound(s);
    NormalizeOfNormal(Normalize(s));
  }

  // ---------------------------------------------------------------------------
  // Rendering the word diff
  // ---------------------------------------------------------------------------

  /** One part of the word diff: a run of text added, removed, or common to both. */
  datatype DiffPart = DiffPart(value: string, added: bool, removed: bool)

  /** `s.replace(/c/g, rep)` for a single character `c`. */
  function ReplaceChar(s: string, c: char, rep: string): string {
    if s == [] then []
    else (if s[0] == c then rep else [s[0]]) + ReplaceChar(s[1..], c, rep)
  }

  /** Every character of the result is a kept character of `s` other than
      `c`, or comes from `rep`. */
  lemma {:induction false} ReplaceCharOnlyKeeps(s: string, c: char, rep: string)
    ensures forall x :: x in ReplaceChar(s, c, rep) ==> (x in s && x != c) || x in rep
  {
    if s != [] {
      ReplaceCharOnlyKeeps(s[1..], c, rep);
      var head := if s[0] == c then rep else [s[0]];
      var tail := ReplaceChar(s[1..], c, rep);
      assert ReplaceChar(s, c, rep) == head + tail;
      assert s == [s[0]] + s[1..];
      forall x | x in head + tail
        ensures (x in s && x != c) || x in rep
      {
        if x !in head {
          assert x in tail;
        }
      }
    }
  }

  /** A string without `c` is left as it is. */
  lemma {:induction false} ReplaceCharAbsent(s: string, c: char, rep: string)
    requires c !in s
    ensures ReplaceChar(s, c, rep) == s
  {
    if s != [] {
      assert s == [s[0]] + s[1..];
      ReplaceCharAbsent(s[1..], c, rep);
    }
  }

  /** The escaping applied to every part: `<` and `>` only, not `&`. */
  function EscapeAngles(v: string): string {
    ReplaceChar(ReplaceChar(v, '<', "&lt;"), '>', "&gt;")
  }

  /** Escaping leaves no angle bracket, and leaves text without angle
      brackets (ampersands included) unchanged. */
  lemma EscapeAnglesSound(v: string)
    ensures '<' !in EscapeAngles(v) && '>' !in EscapeAngles(v)
    ensures '<' !in v && '>' !in v ==> EscapeAngles(v) == v
  {
    ReplaceCharOnlyKeeps(v, '<', "&lt;");
    ReplaceCharOnlyKeeps(ReplaceChar(v, '<', "&lt;"), '>', "&gt;");
    if '<' !in v && '>' !in v {
      ReplaceCharAbsent(v, '<', "&lt;");
      ReplaceCharAbsent(v, '>', "&gt;");
    }
  }

  function RenderPart(p: DiffPart): string {
    if p.added then "<span class=\"diff-added\">" + EscapeAngles(p.value) + "</span>"
    else if p.removed then "<span class=\"diff-removed\">" + EscapeAngles(p.value) + "</span>"
    else EscapeAngles(p.value)
  }

  /** A part list with each part rendered by `render`, concatenated in order. */
  function Joined(render: DiffPart -> string, parts: seq<DiffPart>): string {
    if parts == [] then "" else Joined(render, parts[..|parts| - 1]) + render(parts[|parts| - 1])
  }

  /** Joining distributes over concatenation of part lists. */
  lemma {:induction false} JoinedAppend(render: DiffPart -> string, a: seq<DiffPart>, b: seq<DiffPart>)
    ensures Joined(render, a + b) == Joined(render, a) + Joined(render, b)
    decreases |b|
  {
    if b == [] {
      assert a + b == a;
    } else {
      var b' := b[..|b| - 1];
      var ab := a + b;
      assert ab[..|ab| - 1] == a + b';
      JoinedAppend(render, a, b');
    }
  }

  /** The HTML for a part list. */
  function RenderParts(parts: seq<DiffPart>): string {
    Joined(RenderPart, parts)
  }

  /** The text of a part list. */
  function Text(parts: seq<DiffPart>): string {
    Joined((p: DiffPart) => p.value, parts)
  }

  /** Rendering a diff part by part gives the same HTML as rendering it whole. */
  lemma RenderPartsAppend(a: seq<DiffPart>, b: seq<DiffPart>)
    ensures RenderParts(a + b) == RenderParts(a) + RenderParts(b)
  {
    JoinedAppend(RenderPart, a, b);
  }

  /** Common parts free of angle brackets are emitted as they are. */
  lemma {:induction false} CommonPartsRenderAsText(parts: seq<DiffPart>)
    requires forall i :: 0 <= i < |parts| ==> !parts[i].added && !parts[i].removed
    requires forall i :: 0 <= i < |parts| ==> '<' !in parts[i].value && '>' !in parts[i].value
    ensures RenderParts(parts) == Text(parts)
  {
    if parts != [] {
      CommonPartsRenderAsText(parts[..|parts| - 1]);
      EscapeAnglesSound(parts[|parts| - 1].value);
    }
  }

  /** The `changesHtml` accumulation loop. */
  method RenderChanges(parts: seq<DiffPart>) returns (html: string)
    ensures html == RenderParts(parts)
  {
    html := "";
    for i := 0 to |parts|
      invariant html == RenderParts(parts[..i])
    {
      assert parts[..i + 1][..i] == parts[..i];
      html := html + RenderPart(parts[i]);
    }
    assert parts[..|parts|] == parts;
  }

  // ---------------------------------------------------------------------------
  // Record merges
  // ---------------------------------------------------------------------------

  /** The fields the `/refine` input merge overwrites. */
  const InputFields: set<string> := {"jobUrl", "cvHTML", "refinementLevel", "tabSessionId"}

  /** The fields a stored result overwrites. */
  const ResultFields: set<string> := {"jobUrl", "cvHTML", "refinedHTML", "changes", "extractedKeywords", "completedAt"}

  /** The input merge: the existing record with the URL, the CV, the level
      and the tab id written over it (even with undefined). */
  function InputMerge(existing: Record, jobUrl: JsValue, cvHTML: JsValue, level: int, tab: JsValue): Record {
    existing["jobUrl" := jobUrl]["cvHTML" := cvHTML]["refinementLevel" := Num(level)]["tabSessionId" := tab]
  }

  /** The input merge keeps every existing field and overwrites exactly the
      four input fields. */
  lemma InputMergeFields(existing: Record, jobUrl: JsValue, cvHTML: JsValue, level: int, tab: JsValue)
    ensures var r := InputMerge(existing, jobUrl, cvHTML, level, tab);
      && r.Keys == existing.Keys + InputFields
      && r["jobUrl"] == jobUrl && r["cvHTML"] == cvHTML
      && r["refinementLevel"] == Num(level) && r["tabSessionId"] == tab
      && forall k :: k in existing && k !in InputFields ==> r[k] == existing[k]
  {
  }

  /** The result merge of the background path. */
  function ResultMerge(existing: Record, jobUrl: JsValue, cvHTML: JsValue, refined: string,
                       changes: string, keywords: string, completedAt: string): Record {
    existing["jobUrl" := jobUrl]["cvHTML" := cvHTML]["refinedHTML" := Str(refined)]["changes" := Str(changes)]
            ["extractedKeywords" := Str(keywords)]["completedAt" := Str(completedAt)]
  }

  /** The result merge keeps every existing field and overwrites exactly the
      six result fields. */
  lemma ResultMergeFields(existing: Record, jobUrl: JsValue, cvHTML: JsValue, refined: string,
                          changes: string, keywords: string, completedAt: string)
    ensures var r := ResultMerge(existing, jobUrl, cvHTML, refined, changes, keywords, completedAt);
      && r.Keys == existing.Keys + ResultFields
      && r["jobUrl"] == jobUrl && r["cvHTML"] == cvHTML
      && r["refinedHTML"] == Str(refined) && r["changes"] == Str(changes)
      && r["extractedKeywords"] == Str(keywords) && r["completedAt"] == Str(completedAt)
      && forall k :: k in existing && k !in ResultFields ==> r[k] == existing[k]
  {
  }

  /** The result merge of the synchronous path, which also records the tab id. */
  function SyncResultMerge(existing: Record, jobUrl: JsValue, cvHTML: JsValue, refined: string,
                           changes: string, keywords: string, completedAt: string, tab: JsValue): Record {
    ResultMerge(existing, jobUrl, cvHTML, refined, changes, keywords, completedAt)["tabSessionId" := tab]
  }

  // ---------------------------------------------------------------------------
  // The handler
  // ---------------------------------------------------------------------------

  /** The fields of a `/refine` body; `orderId` and `jobId` are "" when absent. */
  datatype RefineRequest = RefineRequest(
    hasBody: bool, conversationIsArray: bool, jobUrl: JsValue, cvHTML: JsValue,
    refinementLevel: JsValue, orderId: string, jobId: string, tabSessionId: JsValue)

  datatype RefineError = BodyMissing400 | ConversationRequired400 | FieldsRequired400

  /** The request checks, in order. A conversation array is required only
      when there is no order id. */
  function CheckRequest(req: RefineRequest): (e: Option<RefineError>)
    ensures e == Some(BodyMissing400) <==> !req.hasBody
    ensures e == Some(ConversationRequired400) <==> req.hasBody && req.orderId == "" && !req.conversationIsArray
    ensures e.None? <==>
      req.hasBody && (req.orderId != "" || req.conversationIsArray) && Truthy(req.jobUrl) && Truthy(req.cvHTML)
  {
    if !req.hasBody then Some(BodyMissing400)
    else if req.orderId == "" && !req.conversationIsArray then Some(ConversationRequired400)
    else if !Truthy(req.jobUrl) || !Truthy(req.cvHTML) then Some(FieldsRequired400)
    else None
  }

  /** What the external steps produced: the model's trimmed reply and the
      extracted keywords. None: the job-page fetch or a model call failed. */
  datatype ModelResult = ModelResult(finalReply: string, keywords: string)

  datatype RefineReply =
    | Rejected(error: RefineError)
    | StartedInBackground
    | Refined(refinedHTML: string, changes: string, extractedKeywords: string)
    | RefinedWithoutDiff(refinedHTML: string, extractedKeywords: string)
    | RefineFailed500

  /** The record the input merge starts from: whatever `getJobData` finds, or `{}`. */
  function Base(found: Option<Record>): Record {
    if found.Some? then found.value else map[]
  }

  /** The record a job table holds for a job id, or `{}`. */
  function Stored(jobs: map<string, Record>, jobId: string): Record {
    if jobId in jobs then jobs[jobId] else map[]
  }

  /** The changes HTML for a CV and a reply, when the CV is a string
      (`normalize` fails on anything else). */
  function ChangesFor(cvHTML: JsValue, finalReply: string, diff: (string, string) -> seq<DiffPart>): Option<string> {
    if cvHTML.Str? then Some(RenderParts(diff(Normalize(cvHTML.s), Normalize(finalReply)))) else None
  }

  /** The record the input merge writes, given what `getJobData` found. */
  function InputRecord(found: Option<Record>, req: RefineRequest): Record {
    InputMerge(Base(found), req.jobUrl, req.cvHTML, ParseLevel(req.refinementLevel), req.tabSessionId)
  }

  /** The input merge of `/refine` for a request naming a job: the record
      `getJobData` finds (or `{}`) with the request's URL, CV, level and tab
      id written over it, saved through `setJobData`. */
  method MergeInput(store: Storage.Store, req: RefineRequest, loadOk: bool, saveOk: bool)
    modifies store`jobs, store`cloudJobs
    ensures req.jobId == "" ==> store.jobs == old(store.jobs) && store.cloudJobs == old(store.cloudJobs)
    ensures req.jobId != "" ==>
      var merged := InputRecord(old(store.Resolve(req.jobId, loadOk)), req);
      && store.jobs == old(store.jobs)[req.jobId := merged]
      && store.cloudJobs == (if store.storageType == Storage.CloudStorage && saveOk
                             then old(store.cloudJobs)[req.jobId := Storage.JsonRoundTrip(merged)]
                             else old(store.cloudJobs))
  {
    if req.jobId != "" {
      var level := ParseLevel(req.refinementLevel);
      var existing := store.GetJobData(req.jobId, loadOk);
      store.SetJobData(req.jobId, InputMerge(Base(existing), req.jobUrl, req.cvHTML, level, req.tabSessionId), saveOk);
    }
  }

  /** The reply of the synchronous path for a model result. */
  function SyncReply(req: RefineRequest, model: ModelResult, diff: (string, string) -> seq<DiffPart>): RefineReply {
    var changes := ChangesFor(req.cvHTML, model.finalReply, diff);
    if changes.Some?
    then Refined(RemoveMarkdownWrapper(model.finalReply), changes.value, model.keywords)
    else RefinedWithoutDiff(model.finalReply, model.keywords)
  }

  /** The end of the synchronous path. With a diff, the result is written
      straight into the memory table (not through `setJobData`, so not to the
      bucket) and the fence-stripped reply is returned; without one, the raw
      reply is returned and nothing is stored. */
  method FinishRefine(store: Storage.Store, req: RefineRequest, model: ModelResult,
                      diff: (string, string) -> seq<DiffPart>, completedAt: string)
    returns (reply: RefineReply)
    modifies store`jobs
    ensures reply == SyncReply(req, model, diff)
    ensures reply.Refined? ==> reply.refinedHTML == RemoveMarkdownWrapper(model.finalReply)
    ensures reply.Refined? && req.jobId != "" ==>
      store.jobs == old(store.jobs)[req.jobId :=
        SyncResultMerge(Stored(old(store.jobs), req.jobId),
                        req.jobUrl, req.cvHTML, reply.refinedHTML, reply.changes,
                        reply.extractedKeywords, completedAt, req.tabSessionId)]
    ensures !(reply.Refined? && req.jobId != "") ==> store.jobs == old(store.jobs)
  {
    var finalReply := model.finalReply;
    var cleaned := RemoveMarkdownWrapper(finalReply);
    if req.cvHTML.Str? {
      var changes := RenderChanges(diff(Normalize(req.cvHTML.s), Normalize(finalReply)));
      if req.jobId != "" {
        var existing := Stored(store.jobs, req.jobId);
        store.jobs := store.jobs[req.jobId := SyncResultMerge(existing, req.jobUrl, req.cvHTML, cleaned, changes,
                                                              model.keywords, completedAt, req.tabSessionId)];
      }
      reply := Refined(cleaned, changes, model.keywords);
    } else {
      reply := RefinedWithoutDiff(finalReply, model.keywords);
    }
  }

  /** The synchronous path of `/refine` after its checks: the input merge,
      then `FinishRefine`. */
  method RefineSync(store: Storage.Store, req: RefineRequest, loadOk: bool, saveOk: bool,
                    model: ModelResult, diff: (string, string) -> seq<DiffPart>, completedAt: string)
    returns (reply: RefineReply)
    modifies store`jobs, store`cloudJobs
    ensures reply == SyncReply(req, model, diff)
    ensures req.jobId == "" ==> store.jobs == old(store.jobs) && store.cloudJobs == old(store.cloudJobs)
    ensures req.jobId != "" ==>
      store.cloudJobs == (if store.storageType == Storage.CloudStorage && saveOk
                          then old(store.cloudJobs)[req.jobId := Storage.JsonRoundTrip(InputRecord(old(store.Resolve(req.jobId, loadOk)), req))]
                          else old(store.cloudJobs))
    ensures req.jobId != "" ==>
      store.jobs == old(store.jobs)[req.jobId :=
        if reply.Refined?
        then SyncResultMerge(InputRecord(old(store.Resolve(req.jobId, loadOk)), req), req.jobUrl, req.cvHTML,
                             reply.refinedHTML, reply.changes, reply.extractedKeywords, completedAt, req.tabSessionId)
        else InputRecord(old(store.Resolve(req.jobId, loadOk)), req)]
  {
    MergeInput(store, req, loadOk, saveOk);
    ghost var mid := store.jobs;
    reply := FinishRefine(store, req, model, diff, completedAt);
    if req.jobId != "" && reply.Refined? {
      ghost var result := SyncResultMerge(Stored(mid, req.jobId), req.jobUrl, req.cvHTML, reply.refinedHTML,
                                          reply.changes, reply.extractedKeywords, completedAt, req.tabSessionId);
      assert mid[req.jobId := result] == old(store.jobs)[req.jobId := result];
    }
  }

  /** `/refine` after its checks have passed. A request with an order id
      has its input merged and is answered at once, to be finished by
      `ProcessRefinementAsync`; a failed fetch or model call gives 500 after
      the merge; any other request takes the synchronous path. */
  method RefineChecked(store: Storage.Store, req: RefineRequest, loadOk: bool, saveOk: bool,
                       model: Option<ModelResult>, diff: (string, string) -> seq<DiffPart>, completedAt: string)
    returns (reply: RefineReply)
    modifies store`jobs, store`cloudJobs
    ensures req.orderId != "" ==> reply == StartedInBackground
    ensures req.orderId == "" && model.None? ==> reply == RefineFailed500
    ensures req.orderId == "" && model.Some? ==> reply == SyncReply(req, model.value, diff)
    ensures req.jobId == "" ==> store.jobs == old(store.jobs) && store.cloudJobs == old(store.cloudJobs)
    ensures req.jobId != "" ==>
      store.cloudJobs == (if store.storageType == Storage.CloudStorage && saveOk
                          then old(store.cloudJobs)[req.jobId := Storage.JsonRoundTrip(InputRecord(old(store.Resolve(req.jobId, loadOk)), req))]
                          else old(store.cloudJobs))
    ensures req.jobId != "" && !reply.Refined? ==>
      store.jobs == old(store.jobs)[req.jobId := InputRecord(old(store.Resolve(req.jobId, loadOk)), req)]
    ensures req.jobId != "" && reply.Refined? ==>
      store.jobs == old(store.jobs)[req.jobId :=
        SyncResultMerge(InputRecord(old(store.Resolve(req.jobId, loadOk)), req), req.jobUrl, req.cvHTML,
                        reply.refinedHTML, reply.changes, reply.extractedKeywords, completedAt, req.tabSessionId)]
  {
    if req.orderId == "" && model.Some? {
      reply := RefineSync(store, req, loadOk, saveOk, model.value, diff, completedAt);
    } else {
      MergeInput(store, req, loadOk, saveOk);
      reply := if req.orderId != "" then StartedInBackground else RefineFailed500;
    }
  }

  /** `/refine`: a request failing the checks is answered with its error and
      changes nothing; any other is handled by `RefineChecked`. */
  method HandleRefine(store: Storage.Store, req: RefineRequest, loadOk: bool, saveOk: bool,
                      model: Option<ModelResult>, diff: (string, string) -> seq<DiffPart>, completedAt: string)
    returns (reply: RefineReply)
    modifies store`jobs, store`cloudJobs
    ensures CheckRequest(req).Some? ==>
      reply == Rejected(CheckRequest(req).value) &&
      store.jobs == old(store.jobs) && store.cloudJobs == old(store.cloudJobs)
    ensures CheckRequest(req).None? ==> !reply.Rejected?
  {
    var error := CheckRequest(req);
    if error.Some? {
      reply := Rejected(error.value);
      return;
    }
    reply := RefineChecked(store, req, loadOk, saveOk, model, diff, completedAt);
  }

  /** How `processRefinementAsync` ends: a result with its diff, a result
      with `changes: null` when the diff fails for a request without a job
      id, or a throw. */
  datatype AsyncOutcome =
    | AsyncDone(refinedHTML: string, changes: string, extractedKeywords: string)
    | AsyncNoChanges(refinedHTML: string, extractedKeywords: string)
    | AsyncFailed

  /** `processRefinementAsync`, run after `/refine` answered an order. With a
      diff, the result is merged into the job record (without a tab id) and
      saved through `setJobData`. Without one, the diff-failure branch of a
      request with a job id reads the record and then fails on a variable
      that is out of scope, so nothing is stored; without a job id it
      returns the result with no changes. */
  method ProcessRefinementAsync(store: Storage.Store, req: RefineRequest, loadOk: bool, saveOk: bool,
                                model: Option<ModelResult>, diff: (string, string) -> seq<DiffPart>,
                                completedAt: string)
    returns (outcome: AsyncOutcome)
    modifies store`jobs, store`cloudJobs
    ensures model.None? ==>
      (outcome == AsyncFailed && store.jobs == old(store.jobs) && store.cloudJobs == old(store.cloudJobs))
    ensures model.Some? && ChangesFor(req.cvHTML, model.value.finalReply, diff).Some? ==>
      var changes := ChangesFor(req.cvHTML, model.value.finalReply, diff).value;
      var cleaned := RemoveMarkdownWrapper(model.value.finalReply);
      var stored := ResultMerge(Stored(old(store.jobs), req.jobId),
                                req.jobUrl, req.cvHTML, cleaned, changes, model.value.keywords, completedAt);
      && outcome == AsyncDone(cleaned, changes, model.value.keywords)
      && store.jobs == (if req.jobId != "" then old(store.jobs)[req.jobId := stored] else old(store.jobs))
      && store.cloudJobs == (if req.jobId != "" && store.storageType == Storage.CloudStorage && saveOk
                             then old(store.cloudJobs)[req.jobId := Storage.JsonRoundTrip(stored)]
                             else old(store.cloudJobs))
    ensures model.Some? && ChangesFor(req.cvHTML, model.value.finalReply, diff).None? ==>
      && outcome == (if req.jobId != "" then AsyncFailed
                     else AsyncNoChanges(RemoveMarkdownWrapper(model.value.finalReply), model.value.keywords))
      && store.cloudJobs == old(store.cloudJobs)
      && store.jobs == (if req.jobId != "" && old(store.Resolve(req.jobId, loadOk)).Some?
                        then old(store.jobs)[req.jobId := old(store.Resolve(req.jobId, loadOk)).value]
                        else old(store.jobs))
  {
    if model.None? {
      outcome := AsyncFailed;
      return;
    }
    var finalReply := model.value.finalReply;
    var cleaned := RemoveMarkdownWrapper(finalReply);
    if req.cvHTML.Str? {
      var changes := RenderChanges(diff(Normalize(req.cvHTML.s), Normalize(finalReply)));
      if req.jobId != "" {
        var existing := Stored(store.jobs, req.jobId);
        store.SetJobData(req.jobId, ResultMerge(existing, req.jobUrl, req.cvHTML, cleaned, changes,
                                                model.value.keywords, completedAt), saveOk);
      }
      outcome := AsyncDone(cleaned, changes, model.value.keywords);
    } else {
      if req.jobId != "" {
        var _ := store.GetJobData(req.jobId, loadOk);
        outcome := AsyncFailed;
      } else {
        outcome := AsyncNoChanges(cleaned, model.value.keywords);
      }
    }
  }
}
