/**
 * Extraction of calling-frame names from a textual stack trace, as done by
 * the global regular expression `at\s(.+)\s\(` in `isCyclic`.
 *
 * A stack trace is split into lines; `.` never matches a line break, so each
 * match lies within one line. Within a line the regex finds the leftmost
 * "at " that is followed, one or more characters later, by " (", and its
 * greedy capture runs up to the LAST " (" of the line. The remainder of the
 * line holds no further " (", so each line yields at most one name.
 * The whitespace class `\s` is modelled as the blank ' ' only.
 */
module StackTrace {
  import opened Wrappers

  /** "at " starts at index `p` of `line`. */
  predicate AtMarker(line: string, p: nat) {
    p + 2 < |line| && line[p] == 'a' && line[p + 1] == 't' && line[p + 2] == ' '
  }

  /** " (" starts at index `q` of `line`. */
  predicate OpenParen(line: string, q: nat) {
    q + 1 < |line| && line[q] == ' ' && line[q + 1] == '('
  }

  /** A candidate match: "at " at `p`, " (" at `q`, and a non-empty capture between. */
  predicate Match(line: string, p: nat, q: nat) {
    AtMarker(line, p) && OpenParen(line, q) && p + 4 <= q
  }

  /** The match the regex reports: no match starts further left, and the
      greedy capture stops at the last " (" of the line. */
  ghost predicate RegexMatch(line: string, p: nat, q: nat) {
    && Match(line, p, q)
    && (forall p': nat, q': nat :: p' < p ==> !Match(line, p', q'))
    && (forall q': nat :: q < q' ==> !OpenParen(line, q'))
  }

  /** The last " (" that starts before index `k`. */
  function LastOpenParen(line: string, k: nat): (r: Option<nat>)
    requires k <= |line|
    ensures r.Some? ==> r.value < k && OpenParen(line, r.value)
    ensures r.Some? ==> forall q: nat :: r.value < q < k ==> !OpenParen(line, q)
    ensures r.None? ==> forall q: nat :: q < k ==> !OpenParen(line, q)
    decreases k
  {
    if k == 0 then None
    else if OpenParen(line, k - 1) then Some(k - 1)
    else LastOpenParen(line, k - 1)
  }

  /** The first "at " at or after `from` that leaves room for a non-empty
      capture before the " (" at `q`. */
  function FirstAtMarker(line: string, from: nat, q: nat): (r: Option<nat>)
    ensures r.Some? ==> from <= r.value && r.value + 4 <= q && AtMarker(line, r.value)
    ensures r.Some? ==> forall p: nat :: from <= p < r.value ==> !AtMarker(line, p)
    ensures r.None? ==> forall p: nat :: from <= p && p + 4 <= q ==> !AtMarker(line, p)
    decreases q - from
  {
    if q < from + 4 then None
    else if AtMarker(line, from) then Some(from)
    else FirstAtMarker(line, from + 1, q)
  }

  /** The frame name the regex captures in one line, if the line matches. */
  function FrameName(line: string): (r: Option<string>)
    ensures r.Some? <==> exists p: nat, q: nat :: Match(line, p, q)
    ensures r.Some? ==> exists p: nat, q: nat :: RegexMatch(line, p, q) && r.value == line[p + 3..q]
    ensures r.Some? ==> r.value != [] && forall c :: c in r.value ==> c in line
  {
    match LastOpenParen(line, |line|)
    case None => None
    case Some(q) =>
      match FirstAtMarker(line, 0, q)
      case None =>
        assert forall p: nat, q': nat :: !Match(line, p, q') by {
          forall p: nat, q': nat ensures !Match(line, p, q') {
            if OpenParen(line, q') { assert q' <= q; }
          }
        }
        None
      case Some(p) =>
        assert RegexMatch(line, p, q) by {
          forall p': nat, q': nat | p' < p ensures !Match(line, p', q') {
            if OpenParen(line, q') { assert q' <= q; }
          }
        }
        Some(line[p + 3..q])
  }

  /** Index of the first occurrence of `c` in `s`. */
  function IndexOf(s: string, c: char): (r: nat)
    requires c in s
    ensures r < |s| && s[r] == c
    ensures forall j :: 0 <= j < r ==> s[j] != c
    decreases |s|
  {
    if s[0] == c then 0
    else
      assert s == [s[0]] + s[1..];
      1 + IndexOf(s[1..], c)
  }

  /** The lines of `s` joined back with line breaks. */
  function Join(lines: seq<string>): string
    requires |lines| >= 1
    decreases |lines|
  {
    if |lines| == 1 then lines[0] else lines[0] + "\n" + Join(lines[1..])
  }

  /** `s` split at its line breaks; splitting and joining are inverse. */
  function Lines(s: string): (lines: seq<string>)
    ensures |lines| >= 1
    ensures forall k :: 0 <= k < |lines| ==> '\n' !in lines[k]
    ensures Join(lines) == s
    decreases |s|
  {
    if '\n' !in s then [s]
    else
      var e := IndexOf(s, '\n');
      var rest := Lines(s[e + 1..]);
      assert s == s[..e] + "\n" + s[e + 1..];
      [s[..e]] + rest
  }

  /** Joining lines that hold no line break and splitting again gives them back. */
  lemma {:induction false} LinesOfJoin(lines: seq<string>)
    requires |lines| >= 1
    requires forall k :: 0 <= k < |lines| ==> '\n' !in lines[k]
    ensures Lines(Join(lines)) == lines
    decreases |lines|
  {
    if |lines| > 1 {
      var s := Join(lines);
      var head := lines[0];
      assert s == head + "\n" + Join(lines[1..]);
      assert s[|head|] == '\n';
      assert forall j :: 0 <= j < |head| ==> s[j] != '\n' by {
        forall j | 0 <= j < |head| ensures s[j] != '\n' {
          assert s[j] == head[j] && head[j] in head;
        }
      }
      var e := IndexOf(s, '\n');
      assert e == |head|;
      assert s[..e] == head;
      assert s[e + 1..] == Join(lines[1..]);
      LinesOfJoin(lines[1..]);
    }
  }

  /** The names captured from `lines`, in order, skipping lines without a match. */
  function Names(lines: seq<string>): (names: seq<string>)
    ensures |names| <= |lines|
    ensures forall k :: 0 <= k < |names| ==> names[k] != []
    ensures (forall k :: 0 <= k < |lines| ==> '\n' !in lines[k]) ==>
              forall k :: 0 <= k < |names| ==> '\n' !in names[k]
    decreases |lines|
  {
    if lines == [] then []
    else
      var rest := Names(lines[1..]);
      match FrameName(lines[0])
      case None => rest
      case Some(n) => [n] + rest
  }

  /** The frame names the global regex yields, match after match, on a stack trace. */
  function FrameNames(stack: string): (names: seq<string>)
    ensures forall k :: 0 <= k < |names| ==> names[k] != [] && '\n' !in names[k]
  {
    Names(Lines(stack))
  }

  /** One frame of a stack trace in the common "    at <name> (<location>)" form. */
  datatype Frame = Frame(name: string, location: string)

  function FrameLine(f: Frame): string {
    "    at " + f.name + " (" + f.location + ")"
  }

  function FrameLines(frames: seq<Frame>): (lines: seq<string>)
    ensures |lines| == |frames|
    ensures forall k :: 0 <= k < |frames| ==> lines[k] == FrameLine(frames[k])
  {
    seq(|frames|, k requires 0 <= k < |frames| => FrameLine(frames[k]))
  }

  function NamesOf(frames: seq<Frame>): (names: seq<string>)
    ensures |names| == |frames|
    ensures forall k :: 0 <= k < |frames| ==> names[k] == frames[k].name
  {
    seq(|frames|, k requires 0 <= k < |frames| => frames[k].name)
  }

  /** A stack trace: a header line followed by one line per frame. */
  function Render(header: string, frames: seq<Frame>): string {
    Join([header] + FrameLines(frames))
  }

  /** A frame whose line the regex reads back exactly: a non-empty name, and
      no line break anywhere nor " (" inside the location. */
  ghost predicate WellFormed(f: Frame) {
    && f.name != []
    && '\n' !in f.name
    && '\n' !in f.location
    && forall i: nat :: !OpenParen(f.location, i)
  }

  /** A header line the regex does not match. */
  ghost predicate PlainHeader(header: string) {
    '\n' !in header && FrameName(header).None?
  }

  /** The regex reads a frame's name back from its rendered line. */
  lemma FrameNameOfLine(f: Frame)
    requires WellFormed(f)
    ensures FrameName(FrameLine(f)) == Some(f.name)
  {
    var line := FrameLine(f);
    var n := |f.name|;
    var q := 7 + n;
    assert line[..7] == "    at ";
    assert line[7..q] == f.name;
    assert line[q..q + 2] == " (";
    assert line[q + 2..q + 2 + |f.location|] == f.location;
    assert |line| == q + 3 + |f.location|;
    assert Match(line, 4, q);
    forall q': nat | q < q' ensures !OpenParen(line, q') {
      if q' == q + 1 {
        assert line[q'] == '(';
      } else if q' + 2 < |line| {
        var i := q' - (q + 2);
        assert !OpenParen(f.location, i);
        assert line[q'] == f.location[i] && line[q' + 1] == f.location[i + 1];
      } else if q' + 2 == |line| {
        assert line[q' + 1] == ')';
      }
    }
    forall p: nat | p < 4 ensures !AtMarker(line, p) {
      assert line[p] == ' ';
    }
    var r := FrameName(line);
    var p0: nat, q0: nat :| RegexMatch(line, p0, q0) && r.value == line[p0 + 3..q0];
    assert p0 == 4 && q0 == q;
  }

  lemma {:induction false} NamesOfFrameLines(frames: seq<Frame>)
    requires forall k :: 0 <= k < |frames| ==> WellFormed(frames[k])
    ensures Names(FrameLines(frames)) == NamesOf(frames)
    decreases |frames|
  {
    if frames != [] {
      FrameNameOfLine(frames[0]);
      assert FrameLines(frames)[1..] == FrameLines(frames[1..]);
      NamesOfFrameLines(frames[1..]);
      assert NamesOf(frames) == [frames[0].name] + NamesOf(frames[1..]);
    }
  }

  /** Rendering frames into a stack trace and extracting the names again
      yields exactly the frames' names, in order. */
  lemma FrameNamesOfRender(header: string, frames: seq<Frame>)
    requires PlainHeader(header)
    requires forall k :: 0 <= k < |frames| ==> WellFormed(frames[k])
    ensures FrameNames(Render(header, frames)) == NamesOf(frames)
  {
    var lines := [header] + FrameLines(frames);
    forall k | 0 <= k < |lines| ensures '\n' !in lines[k] {
      if k > 0 {
        var f := frames[k - 1];
        assert lines[k] == "    at " + f.name + " (" + f.location + ")";
      }
    }
    LinesOfJoin(lines);
    assert lines[1..] == FrameLines(frames);
    NamesOfFrameLines(frames);
  }
}
