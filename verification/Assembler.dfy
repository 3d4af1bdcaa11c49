/** The octal assembler: a text of octal numbers and comments becomes a file of words. */
module Assembler {
  import opened Wrappers
  import opened MemoryDevice
  import opened WordFiles

  /** How a run ends: with the file written, in a comment that never ends, or reading a line
      too long for its buffer. */
  datatype Outcome = Binary(bytes: seq<byte>) | Hangs | Undefined

  const LINE: nat := 8

  function File(size: word, offset: word, words: seq<byte>): seq<byte> { Bytes(size) + Bytes(offset) + words }

  // One line

  predicate IsSpace(c: char) { c == ' ' || '\t' <= c <= '\r' }

  predicate IsOctal(c: char) { '0' <= c <= '7' }

  function Digit(c: char): nat
    requires IsOctal(c)
  {
    c as int - '0' as int
  }

  /** The leading octal digits and their value. */
  function OctalPrefix(s: string): nat {
    if s == "" || !IsOctal(s[0]) then 0 else 1 + OctalPrefix(s[1..])
  }

  function OctalValue(digits: string): nat
    requires forall i :: 0 <= i < |digits| ==> IsOctal(digits[i])
  {
    if digits == "" then 0 else 8 * OctalValue(digits[..|digits| - 1]) + Digit(digits[|digits| - 1])
  }

  lemma {:induction false} PrefixIsOctal(s: string)
    ensures OctalPrefix(s) <= |s| && forall i :: 0 <= i < OctalPrefix(s) ==> IsOctal(s[i])
  {
    if s != "" && IsOctal(s[0]) {
      PrefixIsOctal(s[1..]);
      forall i | 0 <= i < OctalPrefix(s) ensures IsOctal(s[i]) {
        assert i > 0 ==> s[i] == s[1..][i - 1];
      }
    }
  }

  function Unspaced(s: string): string {
    if s != "" && IsSpace(s[0]) then Unspaced(s[1..]) else s
  }

  function Number(s: string): (r: Option<nat>) {
    PrefixIsOctal(s);
    if OctalPrefix(s) == 0 then None else Some(OctalValue(s[..OctalPrefix(s)]))
  }

  /** What scanning a line for an octal number assigns, if anything: leading space and a sign
      are accepted, and the value is cut to 16 bits. */
  function Scan(line: string): Option<word> {
    var s := Unspaced(line);
    var signed := s != "" && (s[0] == '-' || s[0] == '+');
    match Number(if signed then s[1..] else s)
    case None => None
    case Some(v) => Some((if signed && s[0] == '-' then 0 - v as int else v as int) % 0x1_0000)
  }

  predicate IsEnd(line: string) { ".end" <= line }

  // The whole text

  /** The characters of a line that starts at the beginning of `s`, up to the newline or the
      end; a newline in first place is kept as a character. */
  function LineLength(s: string, from: nat): (n: nat)
    requires from <= |s|
    ensures from <= n <= |s| && (n < |s| ==> s[n] == '\n')
    ensures forall i :: from <= i < n ==> s[i] != '\n'
    decreases |s| - from
  {
    if from == |s| || s[from] == '\n' then from else LineLength(s, from + 1)
  }

  /** The rest of the text after a line that ended at `n`. */
  function AfterLine(s: string, n: nat): string
    requires n <= |s|
  {
    if n < |s| then s[n + 1..] else ""
  }

  /** `number` is the last number scanned, `size` the count of words so far. */
  function Assembled(s: string, offset: word, number: word, size: word, words: seq<byte>): Outcome
    decreases |s|
  {
    if s == "" then Binary(File(0, offset, words))
    else if s[0] == ';' then
      var n := LineLength(s, 1);
      if n == |s| then Hangs else Assembled(s[n + 1..], offset, number, size, words)
    else
      var n := LineLength(s, 1);
      if IsEnd(s[..if n < LINE then n else LINE]) then Binary(File(size, offset, words))
      else if n >= LINE then Undefined
      else
        var w := Scan(s[..n]);
        var value := if w.Some? then w.value else number;
        Assembled(AfterLine(s, n), offset, value, (size + 1) % 0x1_0000, words + Bytes(value))
  }

  function Assemble(source: string, offset: word): Outcome { Assembled(source, offset, 0, 0, []) }

  // The program

  /** Characters come one at a time; beyond the last there is only the end of the file. */
  class Source {
    const text: string
    var next: nat

    constructor (s: string)
      ensures text == s && next == 0
    {
      text := s;
      next := 0;
    }

    method GetChar() returns (c: Option<char>)
      requires next <= |text|
      modifies this
      ensures next <= |text|
      ensures if old(next) < |text| then c == Some(text[old(next)]) && next == old(next) + 1
              else c == None && next == old(next)
    {
      if next == |text| {
        return None;
      }
      c := Some(text[next]);
      next := next + 1;
    }
  }

  lemma {:induction false} LineEnds(s: string, from: nat, n: nat)
    requires from <= n <= |s| && (n < |s| ==> s[n] == '\n') && forall i :: from <= i < n ==> s[i] != '\n'
    ensures LineLength(s, from) == n
    decreases n - from
  {
    if from < n {
      LineEnds(s, from + 1, n);
    }
  }

  /** Read the rest of a line whose first character is in place: up to seven characters more,
      until a newline or the end of the file, which terminates the line in the buffer. */
  method ReadLine(source: Source, line: array<char>) returns (len: nat)
    requires 0 < source.next <= |source.text| && line.Length == LINE
    requires line[0] == source.text[source.next - 1]
    modifies source, line
    ensures var s := source.text[old(source.next) - 1..];
            var n := LineLength(s, 1);
            && len == (if n < LINE then n else LINE) && line[..len] == s[..len]
            && source.next <= |source.text|
            && (n < LINE ==> source.text[source.next..] == AfterLine(s, n))
            && (n >= LINE ==> source.next == old(source.next) + LINE - 1)
  {
    ghost var start := source.next - 1;
    ghost var s := source.text[start..];
    len := 1;
    while len < LINE
      invariant 1 <= len <= LINE && len <= |s|
      invariant source.next == start + len && line[..len] == s[..len]
      invariant forall i :: 1 <= i < len ==> s[i] != '\n'
    {
      var c := source.GetChar();
      if c == None || c == Some('\n') {
        line[len] := '\0';
        LineEnds(s, 1, len);
        return;
      }
      line[len] := c.value;
      len := len + 1;
    }
  }

  /** Skip a comment; the loop in the program never ends when the file does. */
  method SkipComment(source: Source) returns (ended: bool)
    requires 0 < source.next <= |source.text|
    modifies source
    ensures var s := source.text[old(source.next) - 1..];
            var n := LineLength(s, 1);
            && source.next <= |source.text| && (ended <==> n < |s|)
            && (ended ==> source.text[source.next..] == s[n + 1..])
  {
    ghost var start := source.next - 1;
    ghost var s := source.text[start..];
    ghost var len := 1;
    while true
      invariant 1 <= len <= |s| && source.next == start + len <= |source.text|
      invariant forall i :: 1 <= i < len ==> s[i] != '\n'
      decreases |s| - len
    {
      var c := source.GetChar();
      if c == None || c == Some('\n') {
        LineEnds(s, 1, len);
        return c.Some?;
      }
      len := len + 1;
    }
  }

  method Run(source: Source, offset: word) returns (r: Outcome)
    requires source.next == 0
    modifies source
    ensures r == Assemble(source.text, offset)
  {
    var line := new char[LINE];
    var number: word, size: word, words := 0, 0, [];
    while true
      invariant source.next <= |source.text|
      invariant Assembled(source.text[source.next..], offset, number, size, words) == Assemble(source.text, offset)
      decreases |source.text| - source.next
    {
      ghost var rest := source.text[source.next..];
      var peek := source.GetChar();
      if peek == Some(';') {
        var ended := SkipComment(source);
        if !ended {
          return Hangs;
        }
        continue;
      } else if peek == None {
        return Binary(File(0, offset, words));
      }
      line[0] := peek.value;
      var len := ReadLine(source, line);
      if IsEnd(line[..len]) {
        return Binary(File(size, offset, words));
      }
      if len == LINE {
        return Undefined;
      }
      var w := Scan(line[..len]);
      if w.Some? {
        number := w.value;
      }
      words := words + Bytes(number);
      size := (size + 1) % 0x1_0000;
    }
  }
}
