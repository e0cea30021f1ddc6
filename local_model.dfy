/**
 * `lib/trustcheck_local_model.ts`: reading the report out of the text the
 * local model's script printed, and the check that the model's adapter
 * files are present. Launching the script is left out; the directory
 * listing is an input (absent when it cannot be read).
 */
module LocalModel {
  import opened Wrappers
  import opened Text

  const ReportMarker: string := "✅ Отчёт"
  const ProgressMarker: string := "📝 Генерирую отчёт..."

  /** `lines.findIndex(line => line.includes(marker))`, with `|lines|` for -1. */
  function FindLine(lines: seq<string>, marker: string): (i: nat)
    ensures i <= |lines|
    ensures i < |lines| ==> Contains(lines[i], marker)
    ensures forall k :: 0 <= k < i ==> !Contains(lines[k], marker)
  {
    if lines == [] then 0
    else if Contains(lines[0], marker) then 0
    else 1 + FindLine(lines[1..], marker)
  }

  /**
   * `r` is what is left of `s` after a line break, and the part of `s`
   * before it contains `marker`; or `r` is empty and all of `s` comes before.
   */
  predicate TailAfterMarker(s: string, marker: string, r: string)
  {
    && |r| <= |s| && s[|s| - |r|..] == r
    && Contains(s[..|s| - |r|], marker)
    && (r != [] ==> |r| < |s| && s[|s| - |r| - 1] == '\n')
  }

  /**
   * Reference reading on the text itself: walk it line by line and give
   * back what follows the end of the first line that contains `marker`
   * (empty when that line is the last one); nothing when no line does.
   */
  function AfterMarkerLine(s: string, marker: string): (r: Option<string>)
    ensures r.Some? ==> TailAfterMarker(s, marker, r.value)
    ensures r.None? && '\n' !in marker ==> !Contains(s, marker)
    decreases |s|
  {
    var i := FindChar(s, '\n');
    if Contains(s[..i], marker) then
      FirstLineShape(s, i, marker);
      Some(if i == |s| then "" else s[i + 1..])
    else if i == |s| then
      assert s[..i] == s;
      None
    else
      var t := s[i + 1..];
      var r := AfterMarkerLine(t, marker);
      if r.Some? then
        LaterLineShape(s, i, t, marker, r.value);
        r
      else if '\n' !in marker then
        NotInLines(s, i, t, marker);
        r
      else r
  }

  /** What follows a first line that contains the marker is a suffix after a line break. */
  lemma FirstLineShape(s: string, i: nat, marker: string)
    requires i <= |s| && Contains(s[..i], marker) && (i < |s| ==> s[i] == '\n')
    ensures TailAfterMarker(s, marker, if i == |s| then "" else s[i + 1..])
  {
    var rest := if i == |s| then "" else s[i + 1..];
    var u := s[..|s| - |rest|];
    assert s[..i] <= u[0..];
    ContainsAt(u, s[..i], 0);
    ContainsTrans(u, s[..i], marker);
  }

  /** A reading of the text after the first line is a reading of the whole text. */
  lemma LaterLineShape(s: string, i: nat, t: string, marker: string, r: string)
    requires i < |s| && t == s[i + 1..]
    requires TailAfterMarker(t, marker, r)
    ensures TailAfterMarker(s, marker, r)
  {
    var u := s[..|s| - |r|];
    var v := t[..|t| - |r|];
    assert s[|s| - |r|..] == t[|t| - |r|..];
    assert v <= u[i + 1..];
    ContainsAt(u, v, i + 1);
    ContainsTrans(u, v, marker);
    if r != [] {
      assert s[|s| - |r| - 1] == t[|t| - |r| - 1];
    }
  }

  /** A marker without a line break that is in neither the first line nor the rest is not in the text. */
  lemma NotInLines(s: string, i: nat, t: string, marker: string)
    requires i < |s| && s[i] == '\n' && t == s[i + 1..] && '\n' !in marker
    requires !Contains(s[..i], marker) && !Contains(t, marker)
    ensures !Contains(s, marker)
  {
    forall p | 0 <= p <= |s|
      ensures !(marker <= s[p..])
    {
      if marker <= s[p..] {
        if p + |marker| <= i {
          assert marker <= s[..i][p..];
          ContainsAt(s[..i], marker, p);
        } else if p > i {
          assert marker <= t[p - i - 1..];
          ContainsAt(t, marker, p - i - 1);
        }
      }
    }
    ContainsIff(s, marker);
  }

  /** A first line without the marker moves the found line one place on. */
  lemma FindLineCons(first: string, rest: seq<string>, marker: string)
    requires !Contains(first, marker)
    ensures FindLine([first] + rest, marker) == 1 + FindLine(rest, marker)
  {
    assert ([first] + rest)[1..] == rest;
  }

  /** The line-based search of the source agrees with the reading on the text. */
  lemma {:induction false} LinesAgree(s: string, marker: string)
    ensures var lines := Split(s, '\n');
      var i := FindLine(lines, marker);
      && (i < |lines| <==> AfterMarkerLine(s, marker).Some?)
      && (i < |lines| ==> Join(lines[i + 1..], "\n") == AfterMarkerLine(s, marker).value)
    decreases |s|
  {
    var j := FindChar(s, '\n');
    var lines := Split(s, '\n');
    if j < |s| {
      var rest := s[j + 1..];
      var tail := Split(rest, '\n');
      assert lines == [s[..j]] + tail;
      assert lines[1..] == tail;
      if Contains(s[..j], marker) {
        JoinSplit(rest, '\n');
      } else {
        LinesAgree(rest, marker);
        FindLineCons(s[..j], tail, marker);
        var i := FindLine(tail, marker);
        if i < |tail| {
          assert lines[i + 2..] == tail[i + 1..];
        }
      }
    } else {
      assert s[..j] == s;
    }
  }

  /**
   * `extractReportFromOutput`: the text after the first line that mentions
   * the report, trimmed; failing that, the text from the first progress
   * message on, trimmed; failing that, the whole output.
   */
  function ExtractReportFromOutput(output: string): (r: string)
    ensures AfterMarkerLine(output, ReportMarker).Some? ==>
      r == JsTrim(AfterMarkerLine(output, ReportMarker).value)
    ensures AfterMarkerLine(output, ReportMarker).None? && Contains(output, ProgressMarker) ==>
      var f := IndexOf(output, ProgressMarker);
      0 <= f && r == JsTrim(output[f..]) && ProgressMarker <= output[f..]
    ensures AfterMarkerLine(output, ReportMarker).None? && !Contains(output, ProgressMarker) ==> r == output
    ensures Contains(output, r)
  {
    var lines := Split(output, '\n');
    var reportIndex := FindLine(lines, ReportMarker);
    LinesAgree(output, ReportMarker);
    if reportIndex < |lines| then
      var rest := Join(lines[reportIndex + 1..], "\n");
      assert Contains(output, JsTrim(rest)) by {
        TrimContained(rest, IsJsSpace);
        ContainsAt(output, rest, |output| - |rest|);
        ContainsTrans(output, rest, JsTrim(rest));
      }
      JsTrim(rest)
    else
      var fallbackIndex := IndexOf(output, ProgressMarker);
      if fallbackIndex != -1 then
        assert Contains(output, JsTrim(output[fallbackIndex..])) by {
          TrimContained(output[fallbackIndex..], IsJsSpace);
          ContainsAt(output, output[fallbackIndex..], fallbackIndex);
          ContainsTrans(output, output[fallbackIndex..], JsTrim(output[fallbackIndex..]));
        }
        JsTrim(output[fallbackIndex..])
      else
        assert Contains(output, output) by {
          ContainsPrefix(output, output);
        }
        output
  }

  /** The report of a line-separated output: the marker line and everything before it are dropped. */
  lemma ReportAfterHeading(before: string, heading: string, report: string)
    requires '\n' !in before && '\n' !in heading && Contains(heading, ReportMarker)
    requires !Contains(before, ReportMarker)
    requires report != [] && !IsJsSpace(report[0]) && !IsJsSpace(report[|report| - 1])
    ensures ExtractReportFromOutput(before + "\n" + heading + "\n" + report) == report
  {
    HeadingLine(before, heading, report, ReportMarker);
    TrimPadded(report, ' ', IsJsSpace);
  }

  lemma HeadingLine(before: string, heading: string, report: string, marker: string)
    requires '\n' !in before && '\n' !in heading && Contains(heading, marker)
    requires !Contains(before, marker)
    ensures AfterMarkerLine(before + "\n" + heading + "\n" + report, marker) == Some(report)
  {
    var t := heading + "\n" + report;
    assert before + "\n" + heading + "\n" + report == before + ['\n'] + t;
    SkipLine(before, t, marker);
    assert t == heading + ['\n'] + report;
    MarkerLine(heading, report, marker);
  }

  /** A first line without the marker is passed over. */
  lemma SkipLine(line: string, rest: string, marker: string)
    requires '\n' !in line && !Contains(line, marker)
    ensures AfterMarkerLine(line + ['\n'] + rest, marker) == AfterMarkerLine(rest, marker)
  {
    var s := line + ['\n'] + rest;
    FindAfter(line, '\n', rest);
    assert s[..|line|] == line && s[|line| + 1..] == rest;
  }

  /** A first line with the marker gives everything after it. */
  lemma MarkerLine(line: string, rest: string, marker: string)
    requires '\n' !in line && Contains(line, marker)
    ensures AfterMarkerLine(line + ['\n'] + rest, marker) == Some(rest)
  {
    var s := line + ['\n'] + rest;
    FindAfter(line, '\n', rest);
    assert s[..|line|] == line && s[|line| + 1..] == rest;
  }

  /** Output that mentions neither marker comes back unchanged. */
  lemma NoMarkerUnchanged(output: string)
    requires !Contains(output, ReportMarker) && !Contains(output, ProgressMarker)
    ensures ExtractReportFromOutput(output) == output
  {
    if AfterMarkerLine(output, ReportMarker).Some? {
      var r := AfterMarkerLine(output, ReportMarker).value;
      ContainsAt(output, output[..|output| - |r|], 0);
      ContainsTrans(output, output[..|output| - |r|], ReportMarker);
    }
  }

  const AdapterConfig: string := "adapter_config.json"
  const AdapterModel: string := "adapter_model.bin"

  /** `checkModelAvailability`: `listing` is the directory's file names, absent when it cannot be read. */
  function CheckModelAvailability(listing: Option<seq<string>>): (available: bool)
    ensures listing.None? ==> !available
    ensures listing.Some? ==> (available <==> AdapterConfig in listing.value && AdapterModel in listing.value)
  {
    match listing
    case None => false
    case Some(files) => AdapterConfig in files && AdapterModel in files
  }

  /** Other files in the directory, and their order, do not matter. */
  lemma AvailabilityIgnoresOtherFiles(files: seq<string>, more: seq<string>)
    requires CheckModelAvailability(Some(files))
    ensures CheckModelAvailability(Some(more + files)) && CheckModelAvailability(Some(files + more))
  {
    assert AdapterConfig in more + files && AdapterModel in more + files;
  }
}
