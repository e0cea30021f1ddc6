/**
 * Whitespace handling shared by the text extractors: `replace(/\s+/g, ' ')`
 * collapses every run of whitespace to one space, and the facts about
 * collapsing and trimming that the extractors rely on. The lemmas are
 * stated for any class `ws` of characters, JavaScript's `\s` among them.
 */
module Whitespace {
  import opened Text
  import opened Seqs

  /** No two neighbouring characters are both of class `ws`. */
  predicate NoDoubleRun(s: string, ws: char -> bool)
  {
    forall i, j :: 0 <= i < |s| && 0 <= j < |s| && j == i + 1 ==> !(ws(s[i]) && ws(s[j]))
  }

  /** Every maximal run of `ws` characters becomes one space. */
  function CollapseRuns(s: string, ws: char -> bool): (r: string)
    ensures NoDoubleRun(r, ws)
    ensures forall k :: 0 <= k < |r| && ws(r[k]) ==> r[k] == ' '
    ensures s == [] <==> r == []
    ensures s != [] && ws(s[0]) ==> r[0] == ' '
    ensures s != [] && !ws(s[0]) ==> r[0] == s[0]
    decreases |s|
  {
    if s == [] then []
    else if ws(s[0]) then
      var rest := CollapseRuns(TrimStart(s[1..], ws), ws);
      ConsRun(' ', rest, ws);
      [' '] + rest
    else
      var rest := CollapseRuns(s[1..], ws);
      ConsRun(s[0], rest, ws);
      [s[0]] + rest
  }

  /** Putting a character in front keeps the collapsed shape when it does not start a second run. */
  lemma ConsRun(c: char, rest: string, ws: char -> bool)
    requires NoDoubleRun(rest, ws) && forall k :: 0 <= k < |rest| && ws(rest[k]) ==> rest[k] == ' '
    requires ws(c) ==> c == ' ' && (rest != [] ==> !ws(rest[0]))
    ensures NoDoubleRun([c] + rest, ws)
    ensures forall k :: 0 <= k < |[c] + rest| && ws(([c] + rest)[k]) ==> ([c] + rest)[k] == ' '
  {
    var r := [c] + rest;
    assert forall k :: 1 <= k < |r| ==> r[k] == rest[k - 1];
  }

  /** A class of characters that holds of the space and of all of `s` holds of the collapsed text. */
  lemma {:induction false} CollapseKeepsClass(s: string, ws: char -> bool, inClass: char -> bool)
    requires inClass(' ') && forall k :: 0 <= k < |s| ==> inClass(s[k])
    ensures forall k :: 0 <= k < |CollapseRuns(s, ws)| ==> inClass(CollapseRuns(s, ws)[k])
    decreases |s|
  {
    if s != [] {
      var c, rest;
      if ws(s[0]) {
        var t := TrimStart(s[1..], ws);
        SuffixKeepsClass(s, |s| - |t|, inClass);
        assert s[|s| - |t|..] == t;
        CollapseKeepsClass(t, ws, inClass);
        c, rest := ' ', CollapseRuns(t, ws);
      } else {
        SuffixKeepsClass(s, 1, inClass);
        CollapseKeepsClass(s[1..], ws, inClass);
        c, rest := s[0], CollapseRuns(s[1..], ws);
      }
      assert CollapseRuns(s, ws) == [c] + rest;
      ConsKeepsClass(c, rest, inClass);
    }
  }

  /** A class that holds of every character holds of every character of a suffix. */
  lemma SuffixKeepsClass(s: string, j: nat, p: char -> bool)
    requires j <= |s| && forall k :: 0 <= k < |s| ==> p(s[k])
    ensures forall k :: 0 <= k < |s[j..]| ==> p(s[j..][k])
  {
    assert forall k :: 0 <= k < |s[j..]| ==> s[j..][k] == s[j + k];
  }

  /** A class that holds of a character and of every character after it holds of the whole. */
  lemma ConsKeepsClass(c: char, rest: string, p: char -> bool)
    requires p(c) && forall k :: 0 <= k < |rest| ==> p(rest[k])
    ensures forall k :: 0 <= k < |[c] + rest| ==> p(([c] + rest)[k])
  {
    assert forall k :: 1 <= k < |[c] + rest| ==> ([c] + rest)[k] == rest[k - 1];
  }

  /** A text without `ws` characters is left as it is. */
  lemma {:induction false} CollapseNoRun(s: string, ws: char -> bool)
    requires forall k :: 0 <= k < |s| ==> !ws(s[k])
    ensures CollapseRuns(s, ws) == s
  {
    if s != [] {
      CollapseNoRun(s[1..], ws);
    }
  }

  /**
   * A run of `ws` characters between two texts that it does not touch
   * becomes exactly one space, and each side is collapsed on its own.
   */
  lemma {:induction false} CollapseAround(a: string, w: string, b: string, ws: char -> bool)
    requires w != [] && forall k :: 0 <= k < |w| ==> ws(w[k])
    requires a == [] || !ws(a[|a| - 1])
    requires b == [] || !ws(b[0])
    ensures CollapseRuns(a + w + b, ws) == CollapseRuns(a, ws) + [' '] + CollapseRuns(b, ws)
    decreases |a|, 1
  {
    if a == [] {
      CollapseAroundEmpty(a, w, b, ws);
    } else if ws(a[0]) {
      CollapseAroundSkip(a, w, b, ws);
    } else {
      CollapseAroundKeep(a, w, b, ws);
    }
  }

  lemma CollapseAroundEmpty(a: string, w: string, b: string, ws: char -> bool)
    requires w != [] && forall k :: 0 <= k < |w| ==> ws(w[k])
    requires a == [] && (b == [] || !ws(b[0]))
    ensures CollapseRuns(a + w + b, ws) == CollapseRuns(a, ws) + [' '] + CollapseRuns(b, ws)
  {
    CollapseRunFirst(w, b, ws);
    EmptyFirst(a, w, b);
    EmptyFirst(CollapseRuns(a, ws), [' '], CollapseRuns(b, ws));
  }

  /** An empty text in front changes nothing. */
  lemma EmptyFirst<T>(e: seq<T>, x: seq<T>, y: seq<T>)
    requires e == []
    ensures e + x + y == x + y
  {
  }

  lemma {:induction false} CollapseAroundSkip(a: string, w: string, b: string, ws: char -> bool)
    requires w != [] && forall k :: 0 <= k < |w| ==> ws(w[k])
    requires a != [] && ws(a[0]) && !ws(a[|a| - 1])
    requires b == [] || !ws(b[0])
    ensures CollapseRuns(a + w + b, ws) == CollapseRuns(a, ws) + [' '] + CollapseRuns(b, ws)
    decreases |a|, 0
  {
    var a' := TrimStart(a[1..], ws);
    CollapseSkipRun(a, w, b, ws);
    CollapseAround(a', w, b, ws);
    var A, B := CollapseRuns(a', ws), CollapseRuns(b, ws);
    AppendAssoc([' '], A + [' '], B);
    AppendAssoc([' '], A, [' ']);
  }

  lemma {:induction false} CollapseAroundKeep(a: string, w: string, b: string, ws: char -> bool)
    requires w != [] && forall k :: 0 <= k < |w| ==> ws(w[k])
    requires a != [] && !ws(a[0]) && !ws(a[|a| - 1])
    requires b == [] || !ws(b[0])
    ensures CollapseRuns(a + w + b, ws) == CollapseRuns(a, ws) + [' '] + CollapseRuns(b, ws)
    decreases |a|, 0
  {
    CollapseKeepFirst(a, w, b, ws);
    CollapseAround(a[1..], w, b, ws);
    var A, B := CollapseRuns(a[1..], ws), CollapseRuns(b, ws);
    AppendAssoc([a[0]], A + [' '], B);
    AppendAssoc([a[0]], A, [' ']);
  }

  lemma CollapseRunFirst(w: string, b: string, ws: char -> bool)
    requires w != [] && forall k :: 0 <= k < |w| ==> ws(w[k])
    requires b == [] || !ws(b[0])
    ensures CollapseRuns(w + b, ws) == [' '] + CollapseRuns(b, ws)
  {
    assert forall k :: 0 <= k < |w[1..]| ==> ws(w[1..][k]);
    TrimStartRun(w[1..], b, ws);
    CollapseRunOnto(w, b, ws);
  }

  /** A leading `ws` character whose trimmed remainder is `b` collapses onto `b`. */
  lemma CollapseRunOnto(w: string, b: string, ws: char -> bool)
    requires w != [] && ws(w[0]) && TrimStart(w[1..] + b, ws) == b
    ensures CollapseRuns(w + b, ws) == [' '] + CollapseRuns(b, ws)
  {
    TailOfAppend(w, b);
    CollapseLeadingRun(w + b, ws);
  }

  lemma CollapseSkipRun(a: string, w: string, b: string, ws: char -> bool)
    requires a != [] && ws(a[0]) && !ws(a[|a| - 1])
    ensures TrimStart(a[1..], ws) != [] && !ws(TrimStart(a[1..], ws)[|TrimStart(a[1..], ws)| - 1])
    ensures CollapseRuns(a + w + b, ws) == [' '] + CollapseRuns(TrimStart(a[1..], ws) + w + b, ws)
    ensures CollapseRuns(a, ws) == [' '] + CollapseRuns(TrimStart(a[1..], ws), ws)
  {
    TrimStartKeepsEnd(a[1..], ws);
    CollapseLeadingRun(a, ws);
    SkipRunAppend(a, w + b, ws);
    AppendAssoc(a, w, b);
    AppendAssoc(TrimStart(a[1..], ws), w, b);
  }

  /** A leading run that ends inside `a` is skipped the same way when `a` is followed by `y`. */
  lemma SkipRunAppend(a: string, y: string, ws: char -> bool)
    requires a != [] && ws(a[0]) && !ws(a[|a| - 1])
    ensures CollapseRuns(a + y, ws) == [' '] + CollapseRuns(TrimStart(a[1..], ws) + y, ws)
  {
    var x := a[1..];
    TailOfAppend(a, y);
    CollapseLeadingRun(a + y, ws);
    assert TrimStart(x + y, ws) == TrimStart(x, ws) + y by {
      TrimStartAppend(x, y, |x| - 1, ws);
    }
  }

  /** Dropping the first character of a non-empty text drops it from the text it starts. */
  lemma TailOfAppend(x: string, y: string)
    requires x != []
    ensures (x + y)[0] == x[0] && (x + y)[1..] == x[1..] + y
  {
  }

  /** A text that starts with a `ws` character collapses to one space and the collapsed rest after the run. */
  lemma CollapseLeadingRun(s: string, ws: char -> bool)
    requires s != [] && ws(s[0])
    ensures CollapseRuns(s, ws) == [' '] + CollapseRuns(TrimStart(s[1..], ws), ws)
  {
  }

  /** Trimming the start of a text that ends in a non-`ws` character keeps that last character. */
  lemma TrimStartKeepsEnd(x: string, ws: char -> bool)
    requires x != [] && !ws(x[|x| - 1])
    ensures TrimStart(x, ws) != [] && !ws(TrimStart(x, ws)[|TrimStart(x, ws)| - 1])
  {
    var t := TrimStart(x, ws);
    assert |x| - |t| <= |x| - 1;
    assert t[|t| - 1] == x[|x| - 1];
  }

  lemma CollapseKeepFirst(a: string, w: string, b: string, ws: char -> bool)
    requires a != [] && !ws(a[0])
    ensures CollapseRuns(a + w + b, ws) == [a[0]] + CollapseRuns(a[1..] + w + b, ws)
    ensures CollapseRuns(a, ws) == [a[0]] + CollapseRuns(a[1..], ws)
  {
    assert (a + w + b)[1..] == a[1..] + w + b;
  }

  /** Trimming the start of a text that begins with a run and then a non-`ws` character leaves the rest. */
  lemma TrimStartRun(w: string, b: string, ws: char -> bool)
    requires forall k :: 0 <= k < |w| ==> ws(w[k])
    requires b == [] || !ws(b[0])
    ensures TrimStart(w + b, ws) == b
  {
    var s := w + b;
    var r := TrimStart(s, ws);
    if b != [] {
      assert s[|w|] == b[0];
    }
  }

  /** Trimming the start stops inside the first text when that one has a non-`ws` character. */
  lemma {:induction false} TrimStartAppend(x: string, y: string, j: nat, ws: char -> bool)
    requires j < |x| && !ws(x[j])
    ensures TrimStart(x + y, ws) == TrimStart(x, ws) + y
  {
    if ws(x[0]) {
      assert (x + y)[1..] == x[1..] + y;
      TrimStartAppend(x[1..], y, j - 1, ws);
    }
  }

  /** `replace(/\s+/g, ' ')`. */
  function CollapseSpaces(s: string): string
  {
    CollapseRuns(s, IsJsSpace)
  }

  /** Dropping leading `ws` characters keeps the others; `keep` is the complement of `ws`. */
  lemma {:induction false} TrimStartKeepsText(s: string, ws: char -> bool, keep: char -> bool)
    requires forall c :: keep(c) <==> !ws(c)
    ensures Filter(TrimStart(s, ws), keep) == Filter(s, keep)
  {
    if s != [] && ws(s[0]) {
      TrimStartKeepsText(s[1..], ws, keep);
    }
  }

  /** Dropping trailing `ws` characters keeps the others. */
  lemma {:induction false} TrimEndKeepsText(s: string, ws: char -> bool, keep: char -> bool)
    requires forall c :: keep(c) <==> !ws(c)
    ensures Filter(TrimEnd(s, ws), keep) == Filter(s, keep)
  {
    if s != [] && ws(s[|s| - 1]) {
      var init, last := s[..|s| - 1], s[|s| - 1];
      TrimEndKeepsText(init, ws, keep);
      assert s == init + [last];
      FilterAppend(init, [last], keep);
      assert !keep(last);
      FilterDropsOne(last, keep);
    }
  }

  /** Filtering a single rejected element leaves nothing. */
  lemma FilterDropsOne<T>(x: T, p: T -> bool)
    requires !p(x)
    ensures Filter([x], p) == []
  {
    assert [x][1..] == [];
  }

  /** Collapsing keeps every character outside the class, in order. */
  lemma {:induction false} CollapseKeepsText(s: string, ws: char -> bool, keep: char -> bool)
    requires ws(' ') && forall c :: keep(c) <==> !ws(c)
    ensures Filter(CollapseRuns(s, ws), keep) == Filter(s, keep)
    decreases |s|
  {
    if s != [] {
      var r := CollapseRuns(s, ws);
      if ws(s[0]) {
        var t := TrimStart(s[1..], ws);
        CollapseKeepsText(t, ws, keep);
        TrimStartKeepsText(s[1..], ws, keep);
        assert r[1..] == CollapseRuns(t, ws);
      } else {
        CollapseKeepsText(s[1..], ws, keep);
        assert r[1..] == CollapseRuns(s[1..], ws);
      }
    }
  }

  /** A piece of a text without double runs has none either. */
  lemma SliceNoDoubleRun(c: string, i: nat, j: nat, ws: char -> bool)
    requires i <= j <= |c| && NoDoubleRun(c, ws)
    ensures NoDoubleRun(c[i..j], ws)
  {
    var r := c[i..j];
    assert forall k :: 0 <= k < |r| ==> r[k] == c[i + k];
  }

  /** Dropping leading `ws` characters from a text without double runs leaves none. */
  lemma TrimStartNoDoubleRun(c: string, ws: char -> bool)
    requires NoDoubleRun(c, ws)
    ensures NoDoubleRun(TrimStart(c, ws), ws)
  {
    var a := TrimStart(c, ws);
    SliceNoDoubleRun(c, |c| - |a|, |c|, ws);
  }

  /** Dropping trailing `ws` characters from a text without double runs leaves none. */
  lemma TrimEndNoDoubleRun(c: string, ws: char -> bool)
    requires NoDoubleRun(c, ws)
    ensures NoDoubleRun(TrimEnd(c, ws), ws)
  {
    var a := TrimEnd(c, ws);
    SliceNoDoubleRun(c, 0, |a|, ws);
  }

  /** Trimming a text without double runs leaves none. */
  lemma TrimNoDoubleRun(c: string, ws: char -> bool)
    requires NoDoubleRun(c, ws)
    ensures NoDoubleRun(Trim(c, ws), ws)
  {
    TrimStartNoDoubleRun(c, ws);
    TrimEndNoDoubleRun(TrimStart(c, ws), ws);
  }

  /** Trimming keeps the spacing of a collapsed text and removes its edge whitespace. */
  lemma TrimKeepsSpacing(c: string, ws: char -> bool)
    requires NoDoubleRun(c, ws) && forall k :: 0 <= k < |c| && ws(c[k]) ==> c[k] == ' '
    ensures Trim(c, ws) == [] || (!ws(Trim(c, ws)[0]) && !ws(Trim(c, ws)[|Trim(c, ws)| - 1]))
    ensures NoDoubleRun(Trim(c, ws), ws)
    ensures forall k :: 0 <= k < |Trim(c, ws)| && ws(Trim(c, ws)[k]) ==> Trim(c, ws)[k] == ' '
  {
    TrimShape(c, ws);
    TrimNoDoubleRun(c, ws);
    TrimKeepsClass(c, ws, (x: char) => !ws(x) || x == ' ');
  }


}
