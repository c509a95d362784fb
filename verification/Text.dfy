/** The string operations the chat template and its parser are written with
    (qwen35-forward/gdn/src/chat.rs, qwen35-forward/gdn/src/chatparse.rs). */
module Text {
  import opened Options

  // ------------------------------------------------------------------ searching

  predicate At(s: string, pat: string, i: nat) {
    i + |pat| <= |s| && s[i..i + |pat|] == pat
  }

  ghost predicate Has(s: string, pat: string) {
    exists i: nat :: At(s, pat, i)
  }

  /** The first occurrence at or after `i`. */
  function FindFrom(s: string, pat: string, i: nat): (r: Option<nat>)
    requires i <= |s|
    ensures r.Some? ==> i <= r.value && At(s, pat, r.value) && forall j: nat :: i <= j < r.value ==> !At(s, pat, j)
    ensures r.None? ==> forall j: nat :: i <= j ==> !At(s, pat, j)
    decreases |s| - i
  {
    if At(s, pat, i) then Some(i) else if i == |s| then None else FindFrom(s, pat, i + 1)
  }

  function Find(s: string, pat: string): (r: Option<nat>)
    ensures r.Some? ==> At(s, pat, r.value) && forall j: nat :: j < r.value ==> !At(s, pat, j)
    ensures r.Some? <==> Has(s, pat)
  {
    FindFrom(s, pat, 0)
  }

  lemma FindIs(s: string, pat: string, n: nat)
    requires At(s, pat, n) && forall j: nat :: j < n ==> !At(s, pat, j)
    ensures Find(s, pat) == Some(n)
  {
  }

  /** `split_once`. */
  function SplitOnce(s: string, pat: string): (r: Option<(string, string)>)
    ensures r.Some? <==> Has(s, pat)
    ensures r.Some? ==> s == r.value.0 + pat + r.value.1
  {
    var i := Find(s, pat);
    if i.None? then None else Some((s[..i.value], s[i.value + |pat|..]))
  }

  /** `split_once` cuts at the first occurrence. */
  lemma SplitOnceIs(head: string, pat: string, tail: string)
    requires forall j: nat :: j < |head| ==> !At(head + pat + tail, pat, j)
    ensures SplitOnce(head + pat + tail, pat) == Some((head, tail))
  {
    var s := head + pat + tail;
    assert s[|head|..|head| + |pat|] == pat;
    FindIs(s, pat, |head|);
    assert s[..|head|] == head && s[|head| + |pat|..] == tail;
  }

  /** The cut-off head has no occurrence, not even one ending in the separator. */
  lemma HeadHasNone(s: string, pat: string)
    requires SplitOnce(s, pat).Some? && pat != ""
    ensures !Has(SplitOnce(s, pat).value.0, pat)
    ensures forall j: nat :: j < |SplitOnce(s, pat).value.0| ==> !At(s, pat, j)
  {
    var i := Find(s, pat).value;
    forall j: nat | At(s[..i], pat, j) ensures false {
      assert s[j..j + |pat|] == s[..i][j..j + |pat|];
      assert At(s, pat, j);
    }
  }

  /** The last occurrence at or before `i`. */
  function FindBack(s: string, pat: string, i: nat): (r: Option<nat>)
    ensures r.Some? ==> r.value <= i && At(s, pat, r.value) && forall j: nat :: r.value < j <= i ==> !At(s, pat, j)
    ensures r.None? ==> forall j: nat :: j <= i ==> !At(s, pat, j)
  {
    if At(s, pat, i) then Some(i) else if i == 0 then None else FindBack(s, pat, i - 1)
  }

  /** What `rsplit(pat).next()` yields: everything after the last occurrence. */
  function AfterLast(s: string, pat: string): (r: string)
    ensures !Has(s, pat) ==> r == s
  {
    var i := FindBack(s, pat, |s|);
    if i.None? then s else s[i.value + |pat|..]
  }

  lemma AfterLastHasNone(s: string, pat: string)
    requires pat != ""
    ensures !Has(AfterLast(s, pat), pat)
  {
    var i := FindBack(s, pat, |s|);
    if i.None? {
      forall j: nat ensures !At(s, pat, j) {
      }
    } else {
      var k := i.value + |pat|;
      forall j: nat | At(s[k..], pat, j) ensures false {
        assert s[k + j..k + j + |pat|] == s[k..][j..j + |pat|];
        assert At(s, pat, k + j);
      }
    }
  }

  lemma AfterLastIs(head: string, pat: string, tail: string)
    requires forall j: nat :: |head| < j ==> !At(head + pat + tail, pat, j)
    ensures AfterLast(head + pat + tail, pat) == tail
  {
    var s := head + pat + tail;
    assert s[|head|..|head| + |pat|] == pat;
    assert At(s, pat, |head|);
    assert FindBack(s, pat, |s|) == Some(|head|);
  }

  // ------------------------------------------------------------------ occurrences and pieces

  /** A substring's occurrences are occurrences of the whole. */
  lemma HasInside(pre: string, s: string, post: string, pat: string)
    requires Has(s, pat)
    ensures Has(pre + s + post, pat)
  {
    var i: nat :| At(s, pat, i);
    var t := pre + s + post;
    assert t[|pre| + i..|pre| + i + |pat|] == s[i..i + |pat|];
    assert At(t, pat, |pre| + i);
  }

  lemma HasSlice(s: string, i: nat, j: nat, pat: string)
    requires i <= j <= |s| && Has(s[i..j], pat)
    ensures Has(s, pat)
  {
    HasInside(s[..i], s[i..j], s[j..], pat);
    assert s[..i] + s[i..j] + s[j..] == s;
  }

  lemma CharInside(s: string, pat: string, i: nat, k: nat)
    requires At(s, pat, i) && i <= k < i + |pat|
    ensures s[k] == pat[k - i] && s[k] in pat
  {
    assert s[k] == s[i..i + |pat|][k - i];
  }

  lemma NotInSuffix(s: string, t: string, pat: string)
    requires |t| <= |s| && s[|s| - |t|..] == t && !Has(s, pat)
    ensures !Has(t, pat)
  {
    if Has(t, pat) {
      assert s[|s| - |t|..|s|] == t;
      HasSlice(s, |s| - |t|, |s|, pat);
    }
  }

  lemma NotInPrefix(s: string, t: string, pat: string)
    requires |t| <= |s| && s[..|t|] == t && !Has(s, pat)
    ensures !Has(t, pat)
  {
    if Has(t, pat) {
      assert s[0..|t|] == t;
      HasSlice(s, 0, |t|, pat);
    }
  }

  /** The two parts of a split, as a prefix (with the separator's first character) and a suffix. */
  lemma SplitParts(s: string, pat: string)
    requires SplitOnce(s, pat).Some? && pat != ""
    ensures var (head, tail) := SplitOnce(s, pat).value;
            && |head| + 1 <= |s| && s[..|head|] == head && s[..|head| + 1] == head + [pat[0]]
            && |tail| < |s| && s[|s| - |tail|..] == tail
  {
    var (head, tail) := SplitOnce(s, pat).value;
    assert s == head + (pat + tail);
  }

  lemma TrimKeepsNone(s: string, p: char -> bool, pat: string)
    requires !Has(s, pat)
    ensures !Has(Trim(s, p), pat) && !Has(TrimStart(s, p), pat) && !Has(TrimEnd(s, p), pat)
  {
    StartParts(s, p);
    EndParts(s, p);
    EndParts(TrimStart(s, p), p);
    NotInSuffix(s, TrimStart(s, p), pat);
    NotInPrefix(s, TrimEnd(s, p), pat);
    NotInPrefix(TrimStart(s, p), Trim(s, p), pat);
  }

  // ------------------------------------------------------------------ ends

  /** Empty, or not ending in a newline. */
  predicate EndsBare(s: string) {
    s == "" || s[|s| - 1] != '\n'
  }

  lemma SuffixBare(s: string, t: string)
    requires EndsBare(s) && |t| <= |s| && s[|s| - |t|..] == t
    ensures EndsBare(t)
  {
    if t != "" {
      assert t[|t| - 1] == s[|s| - 1];
    }
  }

  /** An occurrence of a pattern without `c` lies on one side of a `c`. */
  lemma OneSide(l: string, c: char, r: string, pat: string, i: nat)
    requires c !in pat && pat != "" && At(l + [c] + r, pat, i)
    ensures At(l, pat, i) || (i > |l| && At(r, pat, i - |l| - 1))
  {
    var s := l + [c] + r;
    if i + |pat| <= |l| {
      assert s[i..i + |pat|] == l[i..i + |pat|];
    } else if |l| < i {
      var k := i - |l| - 1;
      assert s[i..i + |pat|] == r[k..k + |pat|];
    } else {
      CharInside(s, pat, i, |l|);
    }
  }

  lemma HasAround(l: string, c: char, r: string, pat: string)
    requires c !in pat && pat != ""
    ensures Has(l + [c] + r, pat) <==> Has(l, pat) || Has(r, pat)
  {
    if Has(l + [c] + r, pat) {
      var i: nat :| At(l + [c] + r, pat, i);
      OneSide(l, c, r, pat, i);
    }
    if Has(l, pat) {
      HasInside("", l, [c] + r, pat);
      assert "" + l + ([c] + r) == l + [c] + r;
    }
    if Has(r, pat) {
      HasInside(l + [c], r, "", pat);
      assert l + [c] + r + "" == l + [c] + r;
    }
  }

  /** A pattern shorter than its text's length is found nowhere in something shorter than it. */
  lemma ShortHasNone(s: string, pat: string)
    requires |s| < |pat|
    ensures !Has(s, pat)
  {
  }

  // ------------------------------------------------------------------ trimming

  predicate IsNewline(c: char) {
    c == '\n'
  }

  /** `is_python_space`: Unicode `White_Space` and the four ASCII separators. */
  predicate IsSpace(c: char) {
    || '\U{1c}' <= c <= '\U{1f}'
    || '\U{9}' <= c <= '\U{d}' || c == ' ' || c == '\U{85}' || c == '\U{a0}' || c == '\U{1680}'
    || '\U{2000}' <= c <= '\U{200a}' || c == '\U{2028}' || c == '\U{2029}' || c == '\U{202f}'
    || c == '\U{205f}' || c == '\U{3000}'
  }

  predicate AllIn(w: string, p: char -> bool) {
    forall i :: 0 <= i < |w| ==> p(w[i])
  }

  function TrimStart(s: string, p: char -> bool): (r: string)
    ensures r == "" || !p(r[0])
  {
    if s != "" && p(s[0]) then TrimStart(s[1..], p) else s
  }

  function TrimEnd(s: string, p: char -> bool): (r: string)
    ensures r == "" || !p(r[|r| - 1])
  {
    if s != "" && p(s[|s| - 1]) then TrimEnd(s[..|s| - 1], p) else s
  }

  /** Trimming removes matching characters, and those only, from the one end. */
  lemma {:induction false} StartParts(s: string, p: char -> bool)
    ensures var r := TrimStart(s, p); |r| <= |s| && s[|s| - |r|..] == r && AllIn(s[..|s| - |r|], p)
  {
    if s != "" && p(s[0]) {
      StartParts(s[1..], p);
      var r := TrimStart(s, p);
      assert s[1..][|s| - 1 - |r|..] == s[|s| - |r|..];
      assert s[..|s| - |r|] == [s[0]] + s[1..][..|s| - 1 - |r|];
    }
  }

  lemma {:induction false} EndParts(s: string, p: char -> bool)
    ensures var r := TrimEnd(s, p); |r| <= |s| && s[..|r|] == r && AllIn(s[|r|..], p)
  {
    if s != "" && p(s[|s| - 1]) {
      var t := s[..|s| - 1];
      EndParts(t, p);
      var r := TrimEnd(s, p);
      assert t[..|r|] == s[..|r|];
      assert s[|r|..] == t[|r|..] + [s[|s| - 1]];
    }
  }

  /** `trim_matches`. */
  function Trim(s: string, p: char -> bool): (r: string)
    ensures Trimmed(r, p)
  {
    var t := TrimStart(s, p);
    var r := TrimEnd(t, p);
    EndParts(t, p);
    assert r != "" ==> r[0] == t[0];
    r
  }

  /** `jinja_trim`. */
  function JinjaTrim(s: string): (r: string)
    ensures Trimmed(r, IsSpace)
  {
    Trim(s, IsSpace)
  }

  predicate Trimmed(s: string, p: char -> bool) {
    s == "" || (!p(s[0]) && !p(s[|s| - 1]))
  }

  lemma TrimOfTrimmed(s: string, p: char -> bool)
    requires Trimmed(s, p)
    ensures TrimStart(s, p) == s && TrimEnd(s, p) == s && Trim(s, p) == s
  {
  }

  lemma {:induction false} StartPad(w: string, s: string, p: char -> bool)
    requires AllIn(w, p)
    ensures TrimStart(w + s, p) == TrimStart(s, p)
  {
    if w == "" {
      assert w + s == s;
    } else {
      assert (w + s)[1..] == w[1..] + s;
      StartPad(w[1..], s, p);
    }
  }

  lemma {:induction false} EndPad(s: string, w: string, p: char -> bool)
    requires AllIn(w, p)
    ensures TrimEnd(s + w, p) == TrimEnd(s, p)
  {
    if w == "" {
      assert s + w == s;
    } else {
      assert (s + w)[..|s + w| - 1] == s + w[..|w| - 1];
      EndPad(s, w[..|w| - 1], p);
    }
  }

  lemma {:induction false} StartThen(s: string, w: string, p: char -> bool)
    requires AllIn(w, p)
    ensures TrimStart(s + w, p) == if TrimStart(s, p) == "" then "" else TrimStart(s, p) + w
  {
    if s == "" {
      assert s + w == w + "";
      StartPad(w, "", p);
    } else if p(s[0]) {
      assert (s + w)[1..] == s[1..] + w;
      StartThen(s[1..], w, p);
    }
  }

  /** Padding does not change what trimming leaves. */
  lemma TrimPad(w: string, s: string, v: string, p: char -> bool)
    requires AllIn(w, p) && AllIn(v, p)
    ensures Trim(w + s + v, p) == Trim(s, p)
  {
    assert w + s + v == w + (s + v);
    StartPad(w, s + v, p);
    StartThen(s, v, p);
    if TrimStart(s, p) != "" {
      EndPad(TrimStart(s, p), v, p);
    }
  }
}
