/**
 * The scan performed by a global search for `https?://[C]+`, where `[C]` is
 * a character class: Python's `re.findall` and JavaScript's `match` with the
 * `g` flag both try the pattern at each position from the left, take the
 * longest run of class characters (the `+` is greedy and nothing follows
 * it), and resume right after a match.
 */
module UrlScan {
  import opened Wrappers
  import opened Text

  /** Length of the `https?://` scheme at the start of `s`, or 0. */
  function SchemeLen(s: string): (n: nat)
    ensures n == 0 || n == 7 || n == 8
    ensures n == 8 <==> "https://" <= s
    ensures n == 7 <==> "http://" <= s
  {
    if "https://" <= s then
      assert s[4] == 's' && "http://"[4] == ':';
      8
    else if "http://" <= s then 7
    else 0
  }

  /** The longest prefix of `s` made of class characters. */
  function RunLen(s: string, inClass: char -> bool): (n: nat)
    ensures n <= |s|
    ensures forall k :: 0 <= k < n ==> inClass(s[k])
    ensures n == |s| || !inClass(s[n])
  {
    if s != [] && inClass(s[0]) then 1 + RunLen(s[1..], inClass) else 0
  }

  /** Length of the match that starts at the front of `s`, when there is one. */
  function MatchAt(s: string, inClass: char -> bool): (m: Option<nat>)
    ensures m.Some? ==> SchemeLen(s) > 0 && SchemeLen(s) < m.value <= |s|
    ensures m.Some? ==> forall k :: SchemeLen(s) <= k < m.value ==> inClass(s[k])
    ensures m.Some? ==> m.value == |s| || !inClass(s[m.value])
    ensures m.None? ==> SchemeLen(s) == 0 || SchemeLen(s) == |s| || !inClass(s[SchemeLen(s)])
  {
    var p := SchemeLen(s);
    if p == 0 then None
    else
      var n := RunLen(s[p..], inClass);
      if n == 0 then None else Some(p + n)
  }

  /** Every match, left to right. */
  function FindAll(s: string, inClass: char -> bool): (r: seq<string>)
    ensures forall k :: 0 <= k < |r| ==> WellFormed(r[k], inClass)
    decreases |s|
  {
    if s == [] then []
    else match MatchAt(s, inClass)
      case Some(n) => [s[..n]] + FindAll(s[n..], inClass)
      case None => FindAll(s[1..], inClass)
  }

  /** What a URL of this pattern looks like. */
  predicate WellFormed(u: string, inClass: char -> bool)
  {
    var p := SchemeLen(u);
    p > 0 && |u| > p && forall k :: p <= k < |u| ==> inClass(u[k])
  }

  /** `u` occurs in `s` at `i`, and the run cannot go on: the text ends or leaves the class there. */
  predicate EndsRunAt(s: string, u: string, i: nat, inClass: char -> bool)
  {
    i + |u| <= |s| && s[i..i + |u|] == u && (i + |u| == |s| || !inClass(s[i + |u|]))
  }

  /** The scan is greedy: every URL found occurs where its run of class characters ends. */
  lemma {:induction false} FindAllMaximal(s: string, inClass: char -> bool)
    ensures forall u :: u in FindAll(s, inClass) ==> exists i :: EndsRunAt(s, u, i, inClass)
    decreases |s|
  {
    if s != [] {
      match MatchAt(s, inClass)
      case Some(n) =>
        FindAllMaximal(s[n..], inClass);
        assert EndsRunAt(s, s[..n], 0, inClass);
        forall u | u in FindAll(s[n..], inClass) ensures exists i :: EndsRunAt(s, u, i, inClass) {
          var i :| EndsRunAt(s[n..], u, i, inClass);
          EndsRunShift(s, n, u, i, inClass);
        }
      case None =>
        FindAllMaximal(s[1..], inClass);
        forall u | u in FindAll(s[1..], inClass) ensures exists i :: EndsRunAt(s, u, i, inClass) {
          var i :| EndsRunAt(s[1..], u, i, inClass);
          EndsRunShift(s, 1, u, i, inClass);
        }
    }
  }

  lemma EndsRunShift(s: string, n: nat, u: string, i: nat, inClass: char -> bool)
    requires n <= |s| && EndsRunAt(s[n..], u, i, inClass)
    ensures EndsRunAt(s, u, n + i, inClass)
  {
    assert s[n..][i..i + |u|] == s[n + i..n + i + |u|];
  }

  lemma SchemeOfPrefix(s: string, n: nat)
    requires SchemeLen(s) > 0 && SchemeLen(s) <= n <= |s|
    ensures SchemeLen(s[..n]) == SchemeLen(s)
  {
    if SchemeLen(s) == 8 {
      assert "https://" <= s[..n];
    } else {
      assert "http://" <= s[..n];
    }
  }

  /** Every URL found is well formed and occurs in the text. */
  lemma {:induction false} FindAllSound(s: string, inClass: char -> bool)
    ensures forall u :: u in FindAll(s, inClass) ==> WellFormed(u, inClass) && Contains(s, u)
    decreases |s|
  {
    if s != [] {
      match MatchAt(s, inClass)
      case Some(n) =>
        FindAllSound(s[n..], inClass);
        SchemeOfPrefix(s, n);
        ContainsPrefix(s, s[..n]);
        forall u | u in FindAll(s[n..], inClass) ensures Contains(s, u) {
          ContainsAt(s, s[n..], n);
          ContainsTrans(s, s[n..], u);
        }
      case None =>
        FindAllSound(s[1..], inClass);
        forall u | u in FindAll(s[1..], inClass) ensures Contains(s, u) {
          ContainsAt(s, s[1..], 1);
          ContainsTrans(s, s[1..], u);
        }
    }
  }

  /**
   * A text that starts with a URL yields that whole URL first: the match
   * extends to the first character outside the class.
   */
  lemma LeadingUrl(s: string, inClass: char -> bool, n: nat)
    requires n <= |s| && WellFormed(s[..n], inClass)
    requires n == |s| || !inClass(s[n])
    ensures FindAll(s, inClass) != [] && FindAll(s, inClass)[0] == s[..n]
  {
    var p := SchemeLen(s[..n]);
    assert s[..n] <= s;
    SchemeOfPrefixBack(s, n);
    var run := RunLen(s[p..], inClass);
    assert forall k :: p <= k < n ==> inClass(s[k]) by {
      assert forall k :: p <= k < n ==> s[k] == s[..n][k];
    }
    RunIsMaximal(s[p..], inClass, n - p);
  }

  lemma SchemeOfPrefixBack(s: string, n: nat)
    requires n <= |s| && SchemeLen(s[..n]) > 0
    ensures SchemeLen(s) == SchemeLen(s[..n])
  {
    if SchemeLen(s[..n]) == 8 {
      assert s[..n][..8] == s[..8];
    } else {
      assert s[..n][..7] == s[..7];
    }
  }

  lemma RunIsMaximal(t: string, inClass: char -> bool, m: nat)
    requires m <= |t|
    requires forall k :: 0 <= k < m ==> inClass(t[k])
    requires m == |t| || !inClass(t[m])
    ensures RunLen(t, inClass) == m
  {
  }
}
