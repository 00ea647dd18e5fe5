/** Splitting a byte stream into lines.

    The runners read lines through a bounded buffer, one byte at a time.  This module
    defines the lines of a whole stream, so that the buffered readers can be proved
    equal to reading everything at once. */
module Lines {

  /** The bytes after the last newline. */
  function OpenLine(stream: string): string {
    if stream == "" then ""
    else if stream[|stream| - 1] == '\n' then ""
    else OpenLine(stream[..|stream| - 1]) + [stream[|stream| - 1]]
  }

  /** The lines that a newline has ended, in order, without their newlines. */
  function CompleteLines(stream: string): seq<string> {
    if stream == "" then []
    else if stream[|stream| - 1] == '\n'
    then CompleteLines(stream[..|stream| - 1]) + [OpenLine(stream[..|stream| - 1])]
    else CompleteLines(stream[..|stream| - 1])
  }

  /** The lines of a finished stream: a last fragment counts as a line unless it is empty. */
  function AllLines(stream: string): seq<string> {
    if OpenLine(stream) == "" then CompleteLines(stream) else CompleteLines(stream) + [OpenLine(stream)]
  }

  function JoinLines(lines: seq<string>): string {
    if lines == [] then "" else JoinLines(lines[..|lines| - 1]) + lines[|lines| - 1] + "\n"
  }

  lemma NextByte(stream: string, b: char)
    ensures OpenLine(stream + [b]) == if b == '\n' then "" else OpenLine(stream) + [b]
    ensures CompleteLines(stream + [b]) ==
            if b == '\n' then CompleteLines(stream) + [OpenLine(stream)] else CompleteLines(stream)
  {
  }

  /** The split loses nothing and invents nothing: joining it back gives the stream, and no piece
      contains a newline. */
  lemma {:induction false} SplitIsExact(stream: string)
    ensures JoinLines(CompleteLines(stream)) + OpenLine(stream) == stream
    ensures '\n' !in OpenLine(stream)
    ensures forall line :: line in CompleteLines(stream) ==> '\n' !in line
  {
    if stream != "" {
      var prefix, b := stream[..|stream| - 1], stream[|stream| - 1];
      SplitIsExact(prefix);
      assert prefix + [b] == stream;
      if b == '\n' {
        var lines := CompleteLines(stream);
        assert lines[..|lines| - 1] == CompleteLines(prefix);
      }
    }
  }

  lemma LastLineCloses(rest: seq<string>, last: string)
    requires CompleteLines(JoinLines(rest) + last) == rest && OpenLine(JoinLines(rest) + last) == last
    ensures var stream := JoinLines(rest + [last]);
            CompleteLines(stream) == rest + [last] && OpenLine(stream) == ""
  {
  }

  /** Conversely the pieces determine the split, so CompleteLines is the only exact one. */
  lemma {:induction false} SplitIsUnique(lines: seq<string>, open: string)
    requires '\n' !in open
    requires forall line :: line in lines ==> '\n' !in line
    ensures CompleteLines(JoinLines(lines) + open) == lines
    ensures OpenLine(JoinLines(lines) + open) == open
    decreases |lines|, |open|
  {
    var stream := JoinLines(lines) + open;
    if open != "" {
      var shorter, b := open[..|open| - 1], open[|open| - 1];
      SplitIsUnique(lines, shorter);
      assert shorter + [b] == open && b != '\n';
      assert stream == (JoinLines(lines) + shorter) + [b];
      NextByte(JoinLines(lines) + shorter, b);
    } else if lines != [] {
      var rest, last := lines[..|lines| - 1], lines[|lines| - 1];
      SplitIsUnique(rest, last);
      LastLineCloses(rest, last);
      assert rest + [last] == lines && stream == JoinLines(lines);
    } else {
      assert stream == "";
    }
  }
}
