/** The two text escapers, each undone by the reader its format prescribes. */
module Escapers {
  import opened Options

  // strings.ReplaceAll of one character.
  function ReplaceAll(s: string, c: char, with: string): string {
    if s == "" then "" else (if s[0] == c then with else [s[0]]) + ReplaceAll(s[1..], c, with)
  }

  // pdfEscape's first step: anything outside printable ASCII becomes a question mark.
  function Printable(s: string): string {
    if s == "" then "" else [if s[0] < ' ' || s[0] > '~' then '?' else s[0]] + Printable(s[1..])
  }

  function PdfEscape(value: string): string {
    ReplaceAll(ReplaceAll(ReplaceAll(Printable(value), '\\', "\\\\"), '(', "\\("), ')', "\\)")
  }

  function EscapeICalendar(value: string): string {
    ReplaceAll(ReplaceAll(ReplaceAll(ReplaceAll(ReplaceAll(value, '\\', "\\\\"), ';', "\\;"), ',', "\\,"), '\r', ""), '\n', "\\n")
  }

  // ---- The readers ----

  predicate Octal(c: char) {
    '0' <= c <= '7'
  }

  function OctalValue(s: string): nat
    requires forall i :: 0 <= i < |s| ==> Octal(s[i])
  {
    if s == "" then 0
    else
      assert Octal(s[|s| - 1]);
      8 * OctalValue(s[..|s| - 1]) + (s[|s| - 1] as int - '0' as int)
  }

  // Up to three octal digits.
  function OctalRun(s: string): (n: nat)
    ensures n <= |s| && n <= 3 && forall i :: 0 <= i < n ==> Octal(s[i])
  {
    if |s| < 1 || !Octal(s[0]) then 0 else if |s| < 2 || !Octal(s[1]) then 1 else if |s| < 3 || !Octal(s[2]) then 2 else 3
  }

  function Prefixed(c: char, r: Option<(string, string)>): Option<(string, string)> {
    match r
    case None => None
    case Some((text, rest)) => Some(([c] + text, rest))
  }

  // A PDF literal string after its opening parenthesis: its text, and the input after the closing one.
  function ReadLiteral(s: string, depth: nat): Option<(string, string)>
    decreases |s|
  {
    if s == "" then None
    else if s[0] == ')' then if depth == 0 then Some(("", s[1..])) else Prefixed(')', ReadLiteral(s[1..], depth - 1))
    else if s[0] == '(' then Prefixed('(', ReadLiteral(s[1..], depth + 1))
    else if s[0] != '\\' then Prefixed(s[0], ReadLiteral(s[1..], depth))
    else if |s| == 1 then None
    else if s[1] == 'n' then Prefixed('\n', ReadLiteral(s[2..], depth))
    else if s[1] == 'r' then Prefixed('\r', ReadLiteral(s[2..], depth))
    else if s[1] == 't' then Prefixed('\t', ReadLiteral(s[2..], depth))
    else if s[1] == 'b' then Prefixed('\U{08}', ReadLiteral(s[2..], depth))
    else if s[1] == 'f' then Prefixed('\U{0C}', ReadLiteral(s[2..], depth))
    else if s[1] == '\n' then ReadLiteral(s[2..], depth)
    else if Octal(s[1]) then
      var n := OctalRun(s[1..]);
      Prefixed((OctalValue(s[1..][..n]) % 256) as char, ReadLiteral(s[1 + n..], depth))
    else Prefixed(s[1], ReadLiteral(s[2..], depth))
  }

  // An iCalendar TEXT value; a stray backslash is an error.
  function ReadText(s: string): Option<string> {
    if s == "" then Some("")
    else if s[0] != '\\' then
      var rest := ReadText(s[1..]);
      if rest.Some? then Some([s[0]] + rest.value) else None
    else if |s| == 1 then None
    else
      var rest := ReadText(s[2..]);
      if rest.None? then None
      else if s[1] == '\\' || s[1] == ';' || s[1] == ',' then Some([s[1]] + rest.value)
      else if s[1] == 'n' || s[1] == 'N' then Some("\n" + rest.value)
      else None
  }

  // ---- Replacing piece by piece ----

  lemma Associative(a: string, b: string, c: string)
    ensures a + (b + c) == (a + b) + c
  {
  }

  lemma {:induction false} ReplaceConcat(a: string, b: string, c: char, with: string)
    ensures ReplaceAll(a + b, c, with) == ReplaceAll(a, c, with) + ReplaceAll(b, c, with)
  {
    if a == "" {
      assert a + b == b;
    } else {
      ReplaceConcat(a[1..], b, c, with);
      var piece := if a[0] == c then with else [a[0]];
      assert (a + b)[1..] == a[1..] + b && (a + b)[0] == a[0];
      assert ReplaceAll(a + b, c, with) == piece + ReplaceAll(a[1..] + b, c, with);
      assert ReplaceAll(a, c, with) == piece + ReplaceAll(a[1..], c, with);
      hide ReplaceAll;
      Associative(piece, ReplaceAll(a[1..], c, with), ReplaceAll(b, c, with));
    }
  }

  lemma ReplaceOne(x: char, c: char, with: string)
    ensures ReplaceAll([x], c, with) == if x == c then with else [x]
  {
    assert [x][1..] == "";
  }

  lemma ReplaceTwo(x: char, y: char, c: char, with: string)
    requires x != c && y != c
    ensures ReplaceAll([x, y], c, with) == [x, y]
  {
    assert [x, y][1..] == [y];
    ReplaceOne(y, c, with);
  }

  function PdfPiece(c: char): string {
    if c == '\\' || c == '(' || c == ')' then ['\\', c] else [c]
  }

  lemma PdfPieces(c: char, rest: string)
    requires ' ' <= c <= '~'
    ensures PdfEscape([c] + rest) == PdfPiece(c) + PdfEscape(rest)
  {
    assert ([c] + rest)[1..] == rest;
    var p := Printable(rest);
    assert Printable([c] + rest) == [c] + p;
    ReplaceConcat([c], p, '\\', "\\\\");
    ReplaceOne(c, '\\', "\\\\");
    var one := if c == '\\' then "\\\\" else [c];
    var p1 := ReplaceAll(p, '\\', "\\\\");
    ReplaceConcat(one, p1, '(', "\\(");
    if c == '\\' { ReplaceTwo('\\', '\\', '(', "\\("); } else { ReplaceOne(c, '(', "\\("); }
    var two := if c == '(' then "\\(" else one;
    var p2 := ReplaceAll(p1, '(', "\\(");
    ReplaceConcat(two, p2, ')', "\\)");
    if c == '\\' { ReplaceTwo('\\', '\\', ')', "\\)"); } else if c == '(' { ReplaceTwo('\\', '(', ')', "\\)"); } else { ReplaceOne(c, ')', "\\)"); }
  }

  lemma PrintableFirst(value: string)
    requires value != ""
    ensures var c := Printable(value)[0]; ' ' <= c <= '~' && Printable(value) == [c] + Printable(value[1..])
    ensures PdfEscape(value) == PdfPiece(Printable(value)[0]) + PdfEscape(value[1..])
  {
    var c := Printable(value)[0];
    PdfPieces(c, value[1..]);
    assert ([c] + value[1..])[1..] == value[1..];
    assert Printable([c] + value[1..]) == Printable(value);
  }

  // Whatever follows, a reader of the literal stops where the writer closed it and sees the printable text.
  lemma {:induction false} PdfRoundTrip(value: string, rest: string)
    ensures ReadLiteral(PdfEscape(value) + ")" + rest, 0) == Some((Printable(value), rest))
  {
    hide PdfEscape;
    if value == "" {
      assert PdfEscape("") == "" by { EscapeNothing(); }
      assert "" + ")" + rest == ")" + rest;
      assert (")" + rest)[1..] == rest;
    } else {
      PrintableFirst(value);
      PdfRoundTrip(value[1..], rest);
      var c := Printable(value)[0];
      var tail := PdfEscape(value[1..]) + ")" + rest;
      var s := PdfEscape(value) + ")" + rest;
      assert s == PdfPiece(c) + tail;
      assert s[|PdfPiece(c)|..] == tail;
    }
  }

  lemma EscapeNothing()
    ensures PdfEscape("") == "" && EscapeICalendar("") == ""
  {
  }

  // ---- iCalendar ----

  function TextPiece(c: char): string {
    if c == '\\' || c == ';' || c == ',' then ['\\', c] else if c == '\r' then "" else if c == '\n' then "\\n" else [c]
  }

  function WithoutReturns(s: string): string {
    if s == "" then "" else (if s[0] == '\r' then "" else [s[0]]) + WithoutReturns(s[1..])
  }

  // One replacement acting on the piece a character has become so far, and on the rest.
  lemma Step(piece: string, rest: string, c: char, with: string, done: string)
    requires ReplaceAll(piece, c, with) == done
    ensures ReplaceAll(piece + rest, c, with) == done + ReplaceAll(rest, c, with)
  {
    ReplaceConcat(piece, rest, c, with);
  }

  lemma TextPieces(c: char, rest: string)
    ensures EscapeICalendar([c] + rest) == TextPiece(c) + EscapeICalendar(rest)
  {
    var r1 := ReplaceAll(rest, '\\', "\\\\");
    var r2 := ReplaceAll(r1, ';', "\\;");
    var r3 := ReplaceAll(r2, ',', "\\,");
    var r4 := ReplaceAll(r3, '\r', "");
    var p1 := ReplaceAll([c], '\\', "\\\\");
    var p2 := ReplaceAll(p1, ';', "\\;");
    var p3 := ReplaceAll(p2, ',', "\\,");
    var p4 := ReplaceAll(p3, '\r', "");
    Step([c], rest, '\\', "\\\\", p1);
    Step(p1, r1, ';', "\\;", p2);
    Step(p2, r2, ',', "\\,", p3);
    Step(p3, r3, '\r', "", p4);
    Step(p4, r4, '\n', "\\n", ReplaceAll(p4, '\n', "\\n"));
    TextPieceOf(c);
  }

  lemma TextPieceOf(c: char)
    ensures EscapeICalendar([c]) == TextPiece(c)
  {
    ReplaceOne(c, '\\', "\\\\");
    ReplaceOne(c, ';', "\\;");
    ReplaceOne(c, ',', "\\,");
    ReplaceOne(c, '\r', "");
    ReplaceOne(c, '\n', "\\n");
    if c == '\\' || c == ';' || c == ',' {
      if c == '\\' { ReplaceTwo('\\', c, ';', "\\;"); }
      if c != ',' { ReplaceTwo('\\', c, ',', "\\,"); }
      ReplaceTwo('\\', c, '\r', "");
      ReplaceTwo('\\', c, '\n', "\\n");
    }
  }

  // A reader gets the text back, carriage returns aside; the written value never breaks its line.
  lemma {:induction false} TextRoundTrip(value: string)
    ensures ReadText(EscapeICalendar(value)) == Some(WithoutReturns(value))
    ensures '\n' !in EscapeICalendar(value) && '\r' !in EscapeICalendar(value)
  {
    hide EscapeICalendar;
    if value == "" {
      EscapeNothing();
    } else {
      var c, rest := value[0], value[1..];
      assert value == [c] + rest;
      TextPieces(c, rest);
      TextRoundTrip(rest);
      var s, tail := EscapeICalendar(value), EscapeICalendar(rest);
      assert s[|TextPiece(c)|..] == tail;
      if c == '\r' {
        assert s == tail && "" + WithoutReturns(rest) == WithoutReturns(rest);
      } else {
        assert "\n" + WithoutReturns(rest) == ['\n'] + WithoutReturns(rest);
      }
    }
  }
}
