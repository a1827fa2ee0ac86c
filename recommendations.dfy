/** `parse_recommendations`, identical in both orchestrators: it cuts an AI answer into lines,
    strips each, starts a recommendation at every line beginning with "1." to "5." or "•"
    (that line is its title) and appends each following non-empty line, plus one space, to the
    current recommendation's description.  Lines before the first marker are dropped. */
module Recommendations {
  import opened Py

  datatype Recommendation = Recommendation(title: string, description: string)

  predicate IsMarker(line: string) {
    IsPrefix("1.", line) || IsPrefix("2.", line) || IsPrefix("3.", line)
    || IsPrefix("4.", line) || IsPrefix("5.", line) || IsPrefix("•", line)
  }

  /** The lines of `text`, each stripped. */
  function StrippedLines(text: string): (ls: seq<string>)
    ensures |ls| == |Split(text, '\n')|
    ensures forall i :: 0 <= i < |ls| ==> ls[i] == Strip(Split(text, '\n')[i])
  {
    var parts := Split(text, '\n');
    seq(|parts|, i requires 0 <= i < |parts| => Strip(parts[i]))
  }

  /** The description a marker line receives: the non-empty lines after it, up to the next
      marker, each followed by one space. */
  function Description(lines: seq<string>): string {
    if lines == [] || IsMarker(lines[0]) then ""
    else (if lines[0] == "" then "" else lines[0] + " ") + Description(lines[1..])
  }

  /** One recommendation per marker line, titled by it and described by what follows it. */
  function Recs(lines: seq<string>): seq<Recommendation> {
    if lines == [] then []
    else
      (if IsMarker(lines[0]) then [Recommendation(lines[0], Description(lines[1..]))] else [])
        + Recs(lines[1..])
  }

  /** The marker lines, in order. */
  function MarkerLines(lines: seq<string>): seq<string> {
    if lines == [] then [] else (if IsMarker(lines[0]) then [lines[0]] else []) + MarkerLines(lines[1..])
  }

  function Titles(recs: seq<Recommendation>): (ts: seq<string>)
    ensures |ts| == |recs|
  {
    if recs == [] then [] else [recs[0].title] + Titles(recs[1..])
  }

  /** The recommendations are exactly the marker lines, in order: one entry per marker line,
      none for anything else (so text without markers yields []). */
  lemma {:induction false} TitlesAreMarkers(lines: seq<string>)
    ensures Titles(Recs(lines)) == MarkerLines(lines)
  {
    if lines != [] {
      TitlesAreMarkers(lines[1..]);
      var head := if IsMarker(lines[0]) then [Recommendation(lines[0], Description(lines[1..]))] else [];
      TitlesAppend(head, Recs(lines[1..]));
    }
  }

  lemma {:induction false} TitlesAppend(a: seq<Recommendation>, b: seq<Recommendation>)
    ensures Titles(a + b) == Titles(a) + Titles(b)
  {
    if a != [] {
      assert (a + b)[1..] == a[1..] + b;
      TitlesAppend(a[1..], b);
    } else {
      assert a + b == b;
    }
  }

  /** Text in which no stripped line is a marker gives no recommendation. */
  lemma NoMarkerNoRecs(text: string)
    requires forall i :: 0 <= i < |StrippedLines(text)| ==> !IsMarker(StrippedLines(text)[i])
    ensures Recs(StrippedLines(text)) == []
  {
    var ls := StrippedLines(text);
    TitlesAreMarkers(ls);
    NoMarkers(ls);
  }

  lemma {:induction false} NoMarkers(lines: seq<string>)
    requires forall i :: 0 <= i < |lines| ==> !IsMarker(lines[i])
    ensures MarkerLines(lines) == []
  {
    if lines != [] {
      NoMarkers(lines[1..]);
    }
  }

  /** A description is built only of non-marker lines of the text, each with a space added:
      it is empty or ends in a space. */
  lemma {:induction false} DescriptionEndsInSpace(lines: seq<string>)
    ensures Description(lines) == "" || Description(lines)[|Description(lines)| - 1] == ' '
  {
    if lines != [] && !IsMarker(lines[0]) {
      DescriptionEndsInSpace(lines[1..]);
    }
  }

  /** The loop state of `parse_recommendations` after the first i lines: the finished
      recommendations, then the open one (its description completed by the lines still to
      come), then those still to come, make up `Recs(lines)`. */
  ghost predicate ParsedUpTo(lines: seq<string>, i: nat, done: seq<Recommendation>, open: Option<Recommendation>)
    requires i <= |lines|
  {
    match open
    case None => done == [] && Recs(lines[i..]) == Recs(lines)
    case Some(rec) =>
      done + [Recommendation(rec.title, rec.description + Description(lines[i..]))] + Recs(lines[i..]) == Recs(lines)
  }

  /** A marker line closes the open recommendation and opens its own. */
  lemma ReadMarker(lines: seq<string>, i: nat, done: seq<Recommendation>, open: Option<Recommendation>)
    requires i < |lines| && ParsedUpTo(lines, i, done, open) && IsMarker(lines[i])
    ensures ParsedUpTo(lines, i + 1, if open.Some? then done + [open.value] else done, Some(Recommendation(lines[i], "")))
  {
    assert lines[i..][0] == lines[i] && lines[i..][1..] == lines[i + 1..];
    var desc := Description(lines[i + 1..]);
    assert "" + desc == desc;
    var rec := Recommendation(lines[i], desc);
    assert Description(lines[i..]) == "";
    assert Recs(lines[i..]) == [rec] + Recs(lines[i + 1..]);
    if open.Some? {
      assert open.value.description + "" == open.value.description;
      assert done + [open.value] + [rec] + Recs(lines[i + 1..]) == Recs(lines);
    }
  }

  /** A non-empty line that is not a marker extends the open description. */
  lemma ReadText(lines: seq<string>, i: nat, done: seq<Recommendation>, open: Option<Recommendation>)
    requires i < |lines| && ParsedUpTo(lines, i, done, open)
    requires !IsMarker(lines[i]) && open.Some? && lines[i] != ""
    ensures ParsedUpTo(lines, i + 1, done, Some(Recommendation(open.value.title, open.value.description + lines[i] + " ")))
  {
    assert lines[i..][0] == lines[i] && lines[i..][1..] == lines[i + 1..];
    var desc := Description(lines[i + 1..]);
    var d := open.value.description;
    assert d + (lines[i] + " " + desc) == d + lines[i] + " " + desc;
  }

  /** Any other line changes nothing. */
  lemma ReadOther(lines: seq<string>, i: nat, done: seq<Recommendation>, open: Option<Recommendation>)
    requires i < |lines| && ParsedUpTo(lines, i, done, open)
    requires !IsMarker(lines[i]) && (open.None? || lines[i] == "")
    ensures ParsedUpTo(lines, i + 1, done, open)
  {
    assert lines[i..][0] == lines[i] && lines[i..][1..] == lines[i + 1..];
    var desc := Description(lines[i + 1..]);
    assert "" + desc == desc;
  }

  /** After the last line the open recommendation, if any, is complete and closes the list. */
  lemma ReadAll(lines: seq<string>, done: seq<Recommendation>, open: Option<Recommendation>)
    requires ParsedUpTo(lines, |lines|, done, open)
    ensures (if open.Some? then done + [open.value] else done) == Recs(lines)
  {
    assert lines[|lines|..] == [];
    if open.Some? {
      assert open.value.description + "" == open.value.description;
    }
  }

  /** `parse_recommendations` */
  method ParseRecommendations(aiResponse: string) returns (recommendations: seq<Recommendation>)
    ensures recommendations == Recs(StrippedLines(aiResponse))
  {
    var lines := Split(aiResponse, '\n');
    ghost var stripped := StrippedLines(aiResponse);
    recommendations := [];
    var current: Option<Recommendation> := None;
    var i := 0;
    while i < |lines|
      invariant 0 <= i <= |lines| == |stripped|
      invariant ParsedUpTo(stripped, i, recommendations, current)
    {
      var line := Strip(lines[i]);
      assert line == stripped[i];
      if IsMarker(line) {
        ReadMarker(stripped, i, recommendations, current);
        if current.Some? {
          recommendations := recommendations + [current.value];
        }
        current := Some(Recommendation(line, ""));
      } else if current.Some? && line != "" {
        ReadText(stripped, i, recommendations, current);
        current := Some(Recommendation(current.value.title, current.value.description + line + " "));
      } else {
        ReadOther(stripped, i, recommendations, current);
      }
      i := i + 1;
    }
    ReadAll(stripped, recommendations, current);
    if current.Some? {
      recommendations := recommendations + [current.value];
    }
  }

  /** How a recommendation is reported: `{"title": ..., "description": ...}`. */
  function ToJson(recs: seq<Recommendation>): (j: Json)
    ensures j.JList? && |j.items| == |recs|
  {
    JList(seq(|recs|, i requires 0 <= i < |recs| =>
      JObject([("title", JStr(recs[i].title)), ("description", JStr(recs[i].description))])))
  }
}
