/**
 * The escape-sequence filter applied to provider error text:
 * `re.sub(r'(?:\x1B[@-_]|[\x80-\x9F])[0-?]*[ -/]*[@-~]', '', text)`.
 *
 * A sequence is an introducer (ESC followed by a character in @.._, or a
 * single C1 control U+0080..U+009F), any number of parameter characters
 * (0..?), any number of intermediate characters (space../) and one final
 * character (@..~). The three trailing classes are disjoint, so a greedy
 * scan finds the only match that can start at a position.
 */
module AnsiEscape {
  import opened Wrappers

  const ESC: char := '\U{1B}'

  predicate IsFe(c: char) { '@' <= c <= '_' }
  predicate IsC1(c: char) { '\U{80}' <= c <= '\U{9F}' }
  predicate IsParameter(c: char) { '0' <= c <= '?' }
  predicate IsIntermediate(c: char) { ' ' <= c <= '/' }
  predicate IsFinal(c: char) { '@' <= c <= '~' }

  /** A character that can start a sequence. */
  predicate IsIntroducerStart(c: char) { c == ESC || IsC1(c) }

  /** Length of the introducer at the front of `s`, 0 when there is none. */
  function IntroducerLength(s: string): (a: nat)
    ensures a <= 2 && a <= |s|
    ensures a > 0 ==> IsIntroducerStart(s[0])
    ensures a == 2 <==> |s| >= 2 && s[0] == ESC && IsFe(s[1])
    ensures a == 1 <==> |s| >= 1 && IsC1(s[0])
  {
    if |s| >= 2 && s[0] == ESC && IsFe(s[1]) then 2
    else if |s| >= 1 && IsC1(s[0]) then 1
    else 0
  }

  /** The end of the run of parameter characters starting at `i`. */
  function ParameterEnd(s: string, i: nat): (j: nat)
    requires i <= |s|
    ensures i <= j <= |s|
    ensures forall k :: i <= k < j ==> IsParameter(s[k])
    ensures j < |s| ==> !IsParameter(s[j])
    decreases |s| - i
  {
    if i < |s| && IsParameter(s[i]) then ParameterEnd(s, i + 1) else i
  }

  /** The end of the run of intermediate characters starting at `i`. */
  function IntermediateEnd(s: string, i: nat): (j: nat)
    requires i <= |s|
    ensures i <= j <= |s|
    ensures forall k :: i <= k < j ==> IsIntermediate(s[k])
    ensures j < |s| ==> !IsIntermediate(s[j])
    decreases |s| - i
  {
    if i < |s| && IsIntermediate(s[i]) then IntermediateEnd(s, i + 1) else i
  }

  /** The greedy scan of the pattern at the front of `s`: the match length, if any. */
  function MatchLength(s: string): (r: Option<nat>)
    ensures r.Some? ==> 2 <= r.value <= |s|
    ensures r.Some? ==> IsIntroducerStart(s[0])
  {
    var a := IntroducerLength(s);
    if a == 0 then None
    else
      var p := ParameterEnd(s, a);
      var q := IntermediateEnd(s, p);
      if q < |s| && IsFinal(s[q]) then Some(q + 1) else None
  }

  /** `t[lo..hi]` is parameter characters followed by intermediate characters, any number of each. */
  predicate IsBody(t: string, lo: nat, hi: nat)
    requires lo <= hi <= |t|
  {
    && (forall k :: lo <= k < hi ==> IsParameter(t[k]) || IsIntermediate(t[k]))
    && (forall i, j :: lo <= i < j < hi && IsIntermediate(t[i]) ==> !IsParameter(t[j]))
  }

  /** `t` is, as a whole, one string the pattern matches. */
  predicate IsEscape(t: string) {
    var a := IntroducerLength(t);
    a > 0 && |t| > a && IsFinal(t[|t| - 1]) && IsBody(t, a, |t| - 1)
  }

  /** Python's leftmost, non-overlapping substitution of every match by the empty string. */
  function Strip(s: string): (r: string)
    ensures |r| <= |s|
    decreases |s|
  {
    if s == [] then []
    else match MatchLength(s)
      case Some(n) => Strip(s[n..])
      case None => [s[0]] + Strip(s[1..])
  }

  /**
   * The declarative reading of `re.sub(pattern, '', s) == r`: scanning from
   * the left, either some prefix of the rest is a match and is dropped, or none
   * is and the first character is kept.
   */
  ghost predicate Substitutes(s: string, r: string)
    decreases |s|
  {
    if s == [] then r == []
    else
      || (exists m | 1 <= m <= |s| :: IsEscape(s[..m]) && Substitutes(s[m..], r))
      || (&& (forall m | 1 <= m <= |s| :: !IsEscape(s[..m]))
          && r != [] && r[0] == s[0] && Substitutes(s[1..], r[1..]))
  }

  /** `r` is obtained from `s` by deleting characters. */
  predicate IsSubsequence(r: string, s: string)
    decreases |s|
  {
    if r == [] then true
    else if s == [] then false
    else (r[0] == s[0] && IsSubsequence(r[1..], s[1..])) || IsSubsequence(r, s[1..])
  }

  // ---------------------------------------------------------------- lemmas

  lemma {:induction false} ParameterEndIs(s: string, i: nat, j: nat)
    requires i <= j <= |s|
    requires forall k :: i <= k < j ==> IsParameter(s[k])
    requires j < |s| ==> !IsParameter(s[j])
    ensures ParameterEnd(s, i) == j
    decreases j - i
  {
    if i < j {
      ParameterEndIs(s, i + 1, j);
    }
  }

  lemma {:induction false} IntermediateEndIs(s: string, i: nat, j: nat)
    requires i <= j <= |s|
    requires forall k :: i <= k < j ==> IsIntermediate(s[k])
    requires j < |s| ==> !IsIntermediate(s[j])
    ensures IntermediateEnd(s, i) == j
    decreases j - i
  {
    if i < j {
      IntermediateEndIs(s, i + 1, j);
    }
  }

  /** Every match the scan reports is a string the pattern matches. */
  lemma MatchIsEscape(s: string)
    requires MatchLength(s).Some?
    ensures IsEscape(s[..MatchLength(s).value])
  {
    var n := MatchLength(s).value;
    var t := s[..n];
    var a := IntroducerLength(s);
    assert IntroducerLength(t) == a;
    var p := ParameterEnd(s, a);
    var q := IntermediateEnd(s, p);
    assert n == q + 1;
    assert forall k :: 0 <= k < n ==> t[k] == s[k];
    forall i, j | a <= i < j < q && IsIntermediate(t[i]) ensures !IsParameter(t[j]) {
      assert i >= p;
    }
  }

  /**
   * A match can start only where the scan finds one, and it has the length the
   * scan finds: the reading is unique.
   */
  lemma EscapeIsMatch(s: string, m: nat)
    requires m <= |s| && IsEscape(s[..m])
    ensures MatchLength(s) == Some(m)
  {
    var t := s[..m];
    assert forall k :: 0 <= k < m ==> t[k] == s[k];
    var a := IntroducerLength(t);
    assert IntroducerLength(s) == a;
    var f := m - 1;
    assert IsFinal(s[f]) && !IsParameter(s[f]) && !IsIntermediate(s[f]);
    var p := ParameterEnd(s, a);
    assert p <= f;
    forall k | p <= k < f ensures IsIntermediate(s[k]) {
      assert IsIntermediate(t[p]);
      if p < k { assert !IsParameter(t[k]); }
    }
    IntermediateEndIs(s, p, f);
  }

  /** A text whose first character cannot start a sequence keeps that character. */
  lemma KeepsHead(s: string)
    requires s != [] && !IsIntroducerStart(s[0])
    ensures Strip(s) == [s[0]] + Strip(s[1..])
  {
    assert MatchLength(s) == None;
  }

  /** The scan's output is a result of the declarative substitution. */
  lemma {:induction false} StripSubstitutes(s: string)
    ensures Substitutes(s, Strip(s))
    decreases |s|
  {
    if s != [] {
      match MatchLength(s)
      case Some(n) =>
        MatchIsEscape(s);
        StripSubstitutes(s[n..]);
      case None =>
        forall m | 1 <= m <= |s| ensures !IsEscape(s[..m]) {
          if IsEscape(s[..m]) { EscapeIsMatch(s, m); }
        }
        StripSubstitutes(s[1..]);
    }
  }

  /** The declarative substitution has only one result, the scan's. */
  lemma {:induction false} SubstitutionIsStrip(s: string, r: string)
    requires Substitutes(s, r)
    ensures r == Strip(s)
    decreases |s|
  {
    if s != [] {
      match MatchLength(s)
      case Some(n) =>
        MatchIsEscape(s);
        var m :| 1 <= m <= |s| && IsEscape(s[..m]) && Substitutes(s[m..], r);
        EscapeIsMatch(s, m);
        SubstitutionIsStrip(s[n..], r);
      case None =>
        if m :| 1 <= m <= |s| && IsEscape(s[..m]) {
          EscapeIsMatch(s, m);
        }
        SubstitutionIsStrip(s[1..], r[1..]);
    }
  }

  lemma {:induction false} SubsequenceOfSuffix(r: string, s: string, k: nat)
    requires k <= |s| && IsSubsequence(r, s[k..])
    ensures IsSubsequence(r, s)
    decreases k
  {
    if k > 0 {
      assert s[1..][k - 1..] == s[k..];
      SubsequenceOfSuffix(r, s[1..], k - 1);
    }
  }

  /** The filter only deletes characters; what it keeps stays in order. */
  lemma {:induction false} StripIsSubsequence(s: string)
    ensures IsSubsequence(Strip(s), s)
    decreases |s|
  {
    if s != [] {
      match MatchLength(s)
      case Some(n) =>
        StripIsSubsequence(s[n..]);
        SubsequenceOfSuffix(Strip(s), s, n);
      case None =>
        StripIsSubsequence(s[1..]);
    }
  }

  /** Text in which no character can start a sequence is left unchanged. */
  lemma {:induction false} StripClean(s: string)
    requires forall i :: 0 <= i < |s| ==> !IsIntroducerStart(s[i])
    ensures Strip(s) == s
    decreases |s|
  {
    if s != [] {
      KeepsHead(s);
      StripClean(s[1..]);
    }
  }

  /** A prefix in which no character can start a sequence passes through unchanged. */
  lemma {:induction false} StripCleanPrefix(a: string, b: string)
    requires forall i :: 0 <= i < |a| ==> !IsIntroducerStart(a[i])
    ensures Strip(a + b) == a + Strip(b)
    decreases |a|
  {
    if a == [] {
      assert a + b == b && a + Strip(b) == Strip(b);
    } else {
      var s := a + b;
      assert s[0] == a[0];
      KeepsHead(s);
      assert s[1..] == a[1..] + b;
      StripCleanPrefix(a[1..], b);
      assert a + Strip(b) == [a[0]] + (a[1..] + Strip(b));
    }
  }

  /** A sequence at the front is removed whole, whatever follows it. */
  lemma DropsLeadingEscape(e: string, b: string)
    requires IsEscape(e)
    ensures Strip(e + b) == Strip(b)
  {
    assert (e + b)[..|e|] == e;
    EscapeIsMatch(e + b, |e|);
    assert (e + b)[|e|..] == b;
  }

  /**
   * One pass only: deleting a sequence can bring an ESC next to the text after
   * it, and the new sequence they form survives.
   */
  lemma SinglePass()
    ensures Strip("\U{1B}\U{9B}m[m") == "\U{1B}[m"
    ensures Strip(Strip("\U{1B}\U{9B}m[m")) == ""
  {
    var s := "\U{1B}\U{9B}m[m";
    var csi := "\U{9B}m";
    var sgr := "\U{1B}[m";
    assert IntroducerLength(s) == 0;
    assert MatchLength(s) == None;
    assert s[1..] == csi + "[m";
    assert IsEscape(csi) by {
      assert IntroducerLength(csi) == 1;
    }
    DropsLeadingEscape(csi, "[m");
    StripClean("[m");
    assert Strip(s) == sgr;
    assert IsEscape(sgr) by {
      assert IntroducerLength(sgr) == 2;
    }
    DropsLeadingEscape(sgr, "");
    assert sgr + "" == sgr;
  }
}
