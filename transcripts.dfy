/** The transcript a recognition produces: the top candidate of each observed line of
    text, in the order the recognizer reports them, each followed by a line break. */
module Transcripts {
  import opened Common

  /** The transcript of `lines`, built the way the loop builds it: one line and one
      line break appended at a time. */
  function Transcript(lines: seq<string>): string
  {
    if lines == [] then ""
    else Transcript(lines[..|lines| - 1]) + lines[|lines| - 1] + "\n"
  }

  /** The loop of `run()`: `transcript.append(candidate)` then `transcript.append("\n")`
      for every observation. */
  method AssembleTranscript(topCandidates: seq<string>) returns (transcript: string)
    ensures transcript == Transcript(topCandidates)
  {
    transcript := "";
    var i := 0;
    while i < |topCandidates|
      invariant 0 <= i <= |topCandidates|
      invariant transcript == Transcript(topCandidates[..i])
    {
      assert topCandidates[..i + 1][..i] == topCandidates[..i];
      transcript := transcript + topCandidates[i];
      transcript := transcript + "\n";
      i := i + 1;
    }
    assert topCandidates[..i] == topCandidates;
  }

  /** The transcript of two runs of lines is the two transcripts one after the other. */
  lemma {:induction false} TranscriptAppend(first: seq<string>, second: seq<string>)
    ensures Transcript(first + second) == Transcript(first) + Transcript(second)
  {
    if second != [] {
      var all := first + second;
      var init := second[..|second| - 1];
      var last := second[|second| - 1];
      assert all[..|all| - 1] == first + init;
      TranscriptAppend(first, init);
      AppendTwice(Transcript(first), Transcript(init), last);
      AppendTwice(Transcript(first), Transcript(init) + last, "\n");
    } else {
      assert first + second == first;
    }
  }

  /** The number of line breaks in `s`. */
  function LineBreaks(s: string): nat
  {
    multiset(s)['\n']
  }

  /** The line breaks inside the recognized lines themselves. */
  function InnerLineBreaks(lines: seq<string>): nat
  {
    if lines == [] then 0
    else InnerLineBreaks(lines[..|lines| - 1]) + LineBreaks(lines[|lines| - 1])
  }

  /** The transcript holds exactly one appended line break per observation, and
      none at all when there are no observations. */
  lemma {:induction false} TranscriptLineBreaks(lines: seq<string>)
    ensures LineBreaks(Transcript(lines)) == |lines| + InnerLineBreaks(lines)
    ensures lines == [] ==> Transcript(lines) == ""
  {
    if lines != [] {
      var init, last := lines[..|lines| - 1], lines[|lines| - 1];
      TranscriptLineBreaks(init);
      assert multiset(Transcript(init) + last + "\n")
          == multiset(Transcript(init)) + multiset(last) + multiset{'\n'};
    }
  }

  /** Splits text into the lines it holds: each line break ends a line, and text after
      the last line break is a last, unterminated line. */
  function SplitLines(s: string): seq<string>
    decreases |s|
  {
    if s == [] then []
    else
      var body := if s[|s| - 1] == '\n' then s[..|s| - 1] else s;
      match LastIndexOf(body, '\n')
      case None => [body]
      case Some(j) =>
        assert j + 1 < |s|;
        SplitLines(body[..j + 1]) + [body[j + 1..]]
  }

  /** One step of `SplitLines` on text that ends in a line break, once the line
      break before the last line is known. */
  lemma SplitLastLine(s: string, prefix: string, last: string)
    requires s == prefix + last + "\n"
    requires |prefix| > 0 && LastIndexOf(prefix + last, '\n') == Some(|prefix| - 1)
    ensures SplitLines(s) == SplitLines(prefix) + [last]
  {
    var body := prefix + last;
    assert s[..|s| - 1] == body;
    assert body[..|prefix|] == prefix && body[|prefix|..] == last;
  }

  /** The transcript of one line splits back into that line. */
  lemma SplitSingleLine(line: string)
    requires '\n' !in line
    ensures SplitLines(Transcript([line])) == [line]
  {
    var s := Transcript([line]);
    assert [line][..0] == [];
    assert s == Transcript([]) + line + "\n";
    assert "" + line == line;
    assert s[..|s| - 1] == line;
  }

  /** A non-empty transcript ends in the line break of its last line. */
  lemma TranscriptEndsInBreak(lines: seq<string>)
    requires lines != []
    ensures var t := Transcript(lines); |t| > 0 && t[|t| - 1] == '\n'
  {
  }

  /** After a non-empty transcript, the last line break is the one that closes it. */
  lemma LastBreakOfTranscript(init: seq<string>, last: string)
    requires init != [] && '\n' !in last
    ensures var prefix := Transcript(init);
            && |prefix| > 0
            && LastIndexOf(prefix + last, '\n') == Some(|prefix| - 1)
  {
    TranscriptEndsInBreak(init);
    LastIndexAfter(Transcript(init), '\n', last);
  }

  /** Appending one more line to a non-empty transcript appends it to the split. */
  lemma SplitAppendedLine(init: seq<string>, last: string)
    requires init != [] && '\n' !in last
    ensures SplitLines(Transcript(init + [last])) == SplitLines(Transcript(init)) + [last]
  {
    var lines := init + [last];
    assert lines[..|lines| - 1] == init;
    LastBreakOfTranscript(init, last);
    SplitLastLine(Transcript(lines), Transcript(init), last);
  }

  /** Splitting a transcript gives back the recognized lines, provided no recognized
      line itself holds a line break. */
  lemma {:induction false} SplitTranscript(lines: seq<string>)
    requires forall i :: 0 <= i < |lines| ==> '\n' !in lines[i]
    ensures SplitLines(Transcript(lines)) == lines
  {
    if lines != [] {
      var init, last := lines[..|lines| - 1], lines[|lines| - 1];
      assert lines == init + [last];
      if init == [] {
        SplitSingleLine(last);
      } else {
        SplitTranscript(init);
        SplitAppendedLine(init, last);
      }
    }
  }
}
