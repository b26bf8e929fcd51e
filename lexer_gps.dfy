/** The lexer's position tracker: the current line (text and number) and the
    column within it, moved forward as characters are consumed. */
module Gps {
  import opened SourceLocations

  class GPS {
    var line: Line
    var lineNum: nat
    var column: nat

    /** The stored line carries the line counter as its number. */
    ghost predicate Valid()
      reads this
    {
      line.num == lineNum
    }

    /** A fresh tracker sits at line 0, column 0, on the first line of `buf`. */
    constructor (buf: string)
      ensures Valid()
      ensures line == MakeLine(buf, 0, 0) && lineNum == 0 && column == 0
    {
      line := MakeLine(buf, 0, 0);
      lineNum := 0;
      column := 0;
    }

    /** Moves the column by `chars`; the line is untouched. */
    method ColumnMoved(chars: nat)
      requires Valid()
      modifies this
      ensures Valid()
      ensures column == old(column) + chars
      ensures line == old(line) && lineNum == old(lineNum)
    {
      column := column + chars;
    }

    /** Starts the next line at index p of `buf`: column 0, the line counter
        one higher, and the line text re-read from p. */
    method LineMoved(buf: string, p: nat)
      requires Valid() && p <= |buf|
      modifies this
      ensures Valid()
      ensures column == 0 && lineNum == old(lineNum) + 1
      ensures line == MakeLine(buf, p, old(lineNum) + 1)
    {
      column := 0;
      lineNum := lineNum + 1;
      line := MakeLine(buf, p, lineNum);
    }

    /** The location the next consumed character will have. */
    function CurrentLocation(): (loc: SourceLocation)
      reads this
      ensures loc.line == line && loc.column == column
    {
      SourceLocation(line, column)
    }
  }
}
