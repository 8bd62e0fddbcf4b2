/** The hand-written PDF file: numbered objects, the cross-reference table and the trailer, byte by byte. */
module PdfWriter {
  import opened Decimals

  const HEADER: string := "%PDF-1.4\n"
  const FREE_ENTRY: string := "0000000000 65535 f \n"
  const OFFSET_WIDTH: nat := 10
  const ENTRY_SIZE: nat := 20

  // `text` stands in `file` at byte `at`.
  predicate At(file: string, at: nat, text: string) {
    at + |text| <= |file| && file[at..at + |text|] == text
  }

  function ObjectText(number: nat, body: string): string {
    Decimal(number) + " 0 obj\n" + body + "\nendobj\n"
  }

  function EntryText(offset: nat): string {
    Padded(offset, OFFSET_WIDTH) + " 00000 n \n"
  }

  const TABLE_MARK: string := "xref\n"

  function TableSize(objects: nat): string {
    "0 " + Decimal(objects + 1) + "\n" + FREE_ENTRY
  }

  function TableHead(objects: nat): string {
    TABLE_MARK + TableSize(objects)
  }

  function TrailerDictionary(objects: nat, root: nat): string {
    "trailer\n<< /Size " + Decimal(objects + 1) + " /Root " + Decimal(root) + " 0 R >>\n"
  }

  // The last lines: where the table starts, and the end-of-file mark.
  function StartLines(xref: nat): string {
    "startxref\n" + Decimal(xref) + "\n%%EOF\n"
  }

  function TrailerText(objects: nat, root: nat, xref: nat): string {
    TrailerDictionary(objects, root) + StartLines(xref)
  }

  // The first n objects, numbered from one, each at its offset.
  predicate ObjectsAt(file: string, objects: seq<string>, offsets: seq<nat>, n: nat)
    requires n <= |objects| && n <= |offsets|
  {
    forall i :: 0 <= i < n ==> At(file, offsets[i], ObjectText(i + 1, objects[i]))
  }

  // The table's head and its first n entries.
  predicate TableAt(file: string, xref: nat, objects: nat, offsets: seq<nat>, n: nat)
    requires n <= |offsets|
  {
    && At(file, xref, TableHead(objects))
    && forall i :: 0 <= i < n ==> At(file, EntryAt(xref, objects, offsets, i), EntryText(offsets[i]))
  }

  // What a reader of the file must find.
  predicate Consistent(file: string, objects: seq<string>, root: nat, offsets: seq<nat>, xref: nat) {
    && |offsets| == |objects|
    && ObjectsAt(file, objects, offsets, |objects|)
    && TableAt(file, xref, |objects|, offsets, |objects|)
    && TrailerEnds(file, TrailerText(|objects|, root, xref))
  }

  predicate TrailerEnds(file: string, trailer: string) {
    |trailer| <= |file| && file[|file| - |trailer|..] == trailer
  }

  // Where the writer puts the entry of object i + 1: after the entries before it.
  function EntryAt(xref: nat, objects: nat, offsets: seq<nat>, i: nat): nat
    requires i <= |offsets|
  {
    if i == 0 then xref + |TableHead(objects)|
    else EntryAt(xref, objects, offsets, i - 1) + |EntryText(offsets[i - 1])|
  }

  // ---- Lemmas ----

  lemma AtGrows(file: string, at: nat, text: string, more: string)
    requires At(file, at, text)
    ensures At(file + more, at, text)
  {
    assert (file + more)[at..at + |text|] == file[at..at + |text|];
  }

  lemma ObjectsGrow(file: string, objects: seq<string>, offsets: seq<nat>, n: nat, more: string)
    requires n <= |objects| && n <= |offsets| && ObjectsAt(file, objects, offsets, n)
    ensures ObjectsAt(file + more, objects, offsets, n)
  {
    hide At, ObjectText;
    forall i | 0 <= i < n ensures At(file + more, offsets[i], ObjectText(i + 1, objects[i])) {
      AtGrows(file, offsets[i], ObjectText(i + 1, objects[i]), more);
    }
  }

  lemma TableGrows(file: string, xref: nat, objects: nat, offsets: seq<nat>, n: nat, more: string)
    requires n <= |offsets| && TableAt(file, xref, objects, offsets, n)
    ensures TableAt(file + more, xref, objects, offsets, n)
  {
    hide At, EntryText, TableHead, EntryAt;
    AtGrows(file, xref, TableHead(objects), more);
    forall i | 0 <= i < n ensures At(file + more, EntryAt(xref, objects, offsets, i), EntryText(offsets[i])) {
      AtGrows(file, EntryAt(xref, objects, offsets, i), EntryText(offsets[i]), more);
    }
  }

  // The next entry goes where the last one ended.
  lemma TableNext(file: string, xref: nat, objects: nat, offsets: seq<nat>, n: nat)
    requires n < |offsets| && TableAt(file, xref, objects, offsets, n) && |file| == EntryAt(xref, objects, offsets, n)
    ensures var longer := file + EntryText(offsets[n]);
            TableAt(longer, xref, objects, offsets, n + 1) && |longer| == EntryAt(xref, objects, offsets, n + 1)
  {
    hide EntryText, TableHead;
    TableGrows(file, xref, objects, offsets, n, EntryText(offsets[n]));
    AtEnd(file, EntryText(offsets[n]));
  }

  lemma AtEnd(file: string, text: string)
    ensures At(file + text, |file|, text)
  {
  }

  // An entry has the fixed size readers rely on exactly while its offset has at most ten digits.
  lemma EntrySizeFixed(offset: nat)
    ensures |EntryText(offset)| == ENTRY_SIZE <==> offset < Power10(OFFSET_WIDTH)
  {
    if offset < Power10(OFFSET_WIDTH) {
      DecimalLength(offset, OFFSET_WIDTH);
    } else {
      DecimalLengthAtLeast(offset, OFFSET_WIDTH);
    }
  }

  lemma {:induction false} EntryPlace(xref: nat, objects: nat, offsets: seq<nat>, i: nat)
    requires i <= |offsets| && forall j :: 0 <= j < i ==> offsets[j] < Power10(OFFSET_WIDTH)
    ensures EntryAt(xref, objects, offsets, i) == xref + |TableHead(objects)| + ENTRY_SIZE * i
  {
    if i > 0 {
      EntryPlace(xref, objects, offsets, i - 1);
      EntrySizeFixed(offsets[i - 1]);
    }
  }

  // Reading the file as section 7.5.4 of ISO 32000-1 prescribes: entry i + 1 starts ENTRY_SIZE bytes after
  // the last, its first ten digits are an offset, and there stands the object with that number.
  lemma ReaderFindsObject(file: string, objects: seq<string>, root: nat, offsets: seq<nat>, xref: nat, i: nat)
    requires Consistent(file, objects, root, offsets, xref) && |file| <= Power10(OFFSET_WIDTH) && i < |objects|
    ensures var entry := xref + |TableHead(|objects|)| + ENTRY_SIZE * i;
            && entry + ENTRY_SIZE <= |file|
            && (forall d :: entry <= d < entry + OFFSET_WIDTH ==> IsDigit(file[d]))
            && At(file, Value(file[entry..entry + OFFSET_WIDTH]), ObjectText(i + 1, objects[i]))
  {
    hide ObjectText, TableHead, TrailerText, Power10, EntryAt, EntryText, Padded, TrailerEnds;
    forall j | 0 <= j < |objects| ensures offsets[j] < Power10(OFFSET_WIDTH) {
      assert At(file, offsets[j], ObjectText(j + 1, objects[j]));
      ObjectTextNotEmpty(j + 1, objects[j]);
    }
    EntryPlace(xref, |objects|, offsets, i);
    EntrySizeFixed(offsets[i]);
    var entry := EntryAt(xref, |objects|, offsets, i);
    assert At(file, entry, EntryText(offsets[i]));
    EntryOffset(file, entry, offsets[i]);
    assert At(file, offsets[i], ObjectText(i + 1, objects[i]));
  }

  lemma ObjectTextNotEmpty(number: nat, body: string)
    ensures |ObjectText(number, body)| > 0
  {
  }

  lemma EntryOffset(file: string, entry: nat, offset: nat)
    requires At(file, entry, EntryText(offset)) && offset < Power10(OFFSET_WIDTH)
    ensures entry + ENTRY_SIZE <= |file|
    ensures forall d :: entry <= d < entry + OFFSET_WIDTH ==> IsDigit(file[d])
    ensures Value(file[entry..entry + OFFSET_WIDTH]) == offset
  {
    var digits := Padded(offset, OFFSET_WIDTH);
    EntrySizeFixed(offset);
    assert |digits| == OFFSET_WIDTH;
    PaddedValue(offset, OFFSET_WIDTH);
    hide Padded, Value, Power10;
    EntryDigits(file, entry, digits);
  }

  lemma EntryDigits(file: string, entry: nat, digits: string)
    requires At(file, entry, digits + " 00000 n \n") && forall d :: 0 <= d < |digits| ==> IsDigit(digits[d])
    ensures entry + |digits| <= |file| && file[entry..entry + |digits|] == digits
    ensures forall d :: entry <= d < entry + |digits| ==> IsDigit(file[d])
  {
    var whole := digits + " 00000 n \n";
    assert file[entry..entry + |whole|][..|digits|] == file[entry..entry + |digits|];
    assert whole[..|digits|] == digits;
    forall d | entry <= d < entry + |digits| ensures IsDigit(file[d]) {
      assert file[d] == file[entry..entry + |digits|][d - entry];
    }
  }

  // The last lines name a number, and there the table begins.
  lemma ReaderFindsTable(file: string, objects: seq<string>, root: nat, offsets: seq<nat>, xref: nat)
    requires Consistent(file, objects, root, offsets, xref)
    ensures TrailerEnds(file, StartLines(xref)) && At(file, Value(Decimal(xref)), TABLE_MARK)
  {
    hide ObjectsAt, TrailerDictionary, StartLines, TableSize, TrailerEnds, At;
    ValueOfDecimal(xref);
    EndOfEnd(file, TrailerDictionary(|objects|, root), StartLines(xref));
    FrontAt(file, xref, TABLE_MARK, TableSize(|objects|));
  }

  lemma EndOfEnd(file: string, before: string, after: string)
    requires TrailerEnds(file, before + after)
    ensures TrailerEnds(file, after)
  {
    assert (before + after)[|before|..] == after;
    assert file[|file| - |before + after|..][|before|..] == file[|file| - |after|..];
  }

  lemma FrontAt(file: string, at: nat, front: string, rest: string)
    requires At(file, at, front + rest)
    ensures At(file, at, front)
  {
    assert (front + rest)[..|front|] == front;
    assert file[at..at + |front + rest|][..|front|] == file[at..at + |front|];
  }

  // ---- A reader that knows digits only ----

  // The digits a reader meets from here on.
  function DigitsFrom(file: string, at: nat): (r: string)
    ensures forall i :: 0 <= i < |r| ==> IsDigit(r[i])
    decreases |file| - at
  {
    if at < |file| && IsDigit(file[at]) then [file[at]] + DigitsFrom(file, at + 1) else ""
  }

  // A number, and what comes after it.
  ghost predicate Reads(file: string, at: nat, n: nat, rest: string) {
    var digits := DigitsFrom(file, at);
    digits != "" && Value(digits) == n && At(file, at + |digits|, rest)
  }

  lemma {:induction false} DigitsRead(file: string, at: nat, digits: string, rest: string)
    requires At(file, at, digits + rest) && rest != "" && !IsDigit(rest[0])
    requires forall i :: 0 <= i < |digits| ==> IsDigit(digits[i])
    ensures DigitsFrom(file, at) == digits && At(file, at + |digits|, rest)
    decreases |digits|
  {
    var text := digits + rest;
    assert file[at] == file[at..at + |text|][0] == text[0];
    if digits == "" {
      assert text == rest;
    } else {
      assert file[at..at + |text|][1..] == file[at + 1..at + |text|];
      assert text[1..] == digits[1..] + rest;
      DigitsRead(file, at + 1, digits[1..], rest);
      assert digits == [digits[0]] + digits[1..];
    }
  }

  lemma NumberRead(file: string, at: nat, n: nat, rest: string)
    requires At(file, at, Decimal(n) + rest) && rest != "" && !IsDigit(rest[0])
    ensures Reads(file, at, n, rest)
  {
    ValueOfDecimal(n);
    DigitsRead(file, at, Decimal(n), rest);
  }

  lemma After(file: string, at: nat, front: string, rest: string)
    requires At(file, at, front + rest)
    ensures At(file, at, front) && At(file, at + |front|, rest)
  {
    FrontAt(file, at, front, rest);
    assert (front + rest)[|front|..] == rest;
    assert file[at..at + |front + rest|][|front|..] == file[at + |front|..at + |front + rest|];
  }

  /** The object an entry leads to is numbered as the entry, and its body stands whole between the marks. */
  lemma ReaderReadsObject(file: string, objects: seq<string>, root: nat, offsets: seq<nat>, xref: nat, i: nat) returns (at: nat)
    requires Consistent(file, objects, root, offsets, xref) && |file| <= Power10(OFFSET_WIDTH) && i < |objects|
    ensures var entry := xref + |TableHead(|objects|)| + ENTRY_SIZE * i;
            && entry + ENTRY_SIZE <= |file| && (forall d :: entry <= d < entry + OFFSET_WIDTH ==> IsDigit(file[d]))
            && at == Value(file[entry..entry + OFFSET_WIDTH])
    ensures Reads(file, at, i + 1, " 0 obj\n" + objects[i] + "\nendobj\n")
  {
    hide Consistent, Value, At, ObjectText, TableHead, Reads, Power10;
    ReaderFindsObject(file, objects, root, offsets, xref, i);
    var entry := xref + |TableHead(|objects|)| + ENTRY_SIZE * i;
    at := Value(file[entry..entry + OFFSET_WIDTH]);
    ObjectRead(file, at, i + 1, objects[i]);
  }

  lemma ObjectRead(file: string, at: nat, number: nat, body: string)
    requires At(file, at, ObjectText(number, body))
    ensures Reads(file, at, number, " 0 obj\n" + body + "\nendobj\n")
  {
    hide At, Reads;
    var rest := " 0 obj\n" + body + "\nendobj\n";
    assert ObjectText(number, body) == Decimal(number) + rest;
    NumberRead(file, at, number, rest);
  }

  /** The table tells one entry more than there are objects, and its entries begin right behind the free one. */
  lemma ReaderReadsTable(file: string, objects: seq<string>, root: nat, offsets: seq<nat>, xref: nat)
    requires Consistent(file, objects, root, offsets, xref)
    ensures At(file, xref, "xref\n0 ") && Reads(file, xref + 7, |objects| + 1, "\n0000000000 65535 f \n")
    ensures |TableHead(|objects|)| == 7 + |DigitsFrom(file, xref + 7)| + 21
  {
    var size, rest := Decimal(|objects| + 1), "\n0000000000 65535 f \n";
    assert At(file, xref, TableHead(|objects|));
    hide Consistent, At, Value;
    assert TableHead(|objects|) == "xref\n0 " + (size + rest);
    After(file, xref, "xref\n0 ", size + rest);
    NumberRead(file, xref + 7, |objects| + 1, rest);
    DigitsRead(file, xref + 7, size, rest);
  }

  /** The file ends in a trailer that names the number of entries, the root object and the table. */
  lemma ReaderReadsTrailer(file: string, objects: seq<string>, root: nat, offsets: seq<nat>, xref: nat)
      returns (at: nat, size: nat, catalog: nat, start: nat)
    requires Consistent(file, objects, root, offsets, xref)
    ensures At(file, at, "trailer\n<< /Size ") && size == at + 17 && Reads(file, size, |objects| + 1, " /Root ")
    ensures catalog == size + |DigitsFrom(file, size)| + 7 && Reads(file, catalog, root, " 0 R >>\nstartxref\n")
    ensures start == catalog + |DigitsFrom(file, catalog)| + 18 && Reads(file, start, xref, "\n%%EOF\n")
    ensures |file| == start + |DigitsFrom(file, start)| + 7
  {
    assert TrailerEnds(file, TrailerText(|objects|, root, xref));
    hide Consistent, At, Value, TrailerText, Reads;
    TrailerParts(|objects|, root, xref);
    at := LastAt(file, TrailerText(|objects|, root, xref));
    size, catalog, start := ReadInTurn(file, at, |objects| + 1, root, xref, "trailer\n<< /Size ", " /Root ", " 0 R >>\nstartxref\n", "\n%%EOF\n");
  }

  lemma TrailerParts(objects: nat, root: nat, xref: nat)
    ensures TrailerText(objects, root, xref) ==
            "trailer\n<< /Size " + (Decimal(objects + 1) + (" /Root " + (Decimal(root) + (" 0 R >>\nstartxref\n" + (Decimal(xref) + "\n%%EOF\n")))))
  {
    var size, catalog, start := Decimal(objects + 1), Decimal(root), Decimal(xref);
    hide Decimal;
    assert TrailerDictionary(objects, root) == "trailer\n<< /Size " + (size + (" /Root " + (catalog + " 0 R >>\n")));
    assert StartLines(xref) == "startxref\n" + (start + "\n%%EOF\n");
    assert " 0 R >>\nstartxref\n" == " 0 R >>\n" + "startxref\n";
  }

  lemma LastAt(file: string, text: string) returns (at: nat)
    requires TrailerEnds(file, text)
    ensures At(file, at, text) && at + |text| == |file|
  {
    at := |file| - |text|;
  }

  // Three numbers, each between its marks, up to the end of the file.
  lemma ReadInTurn(file: string, at: nat, a: nat, b: nat, c: nat, m: string, n: string, o: string, p: string)
      returns (first: nat, second: nat, third: nat)
    requires var text := m + (Decimal(a) + (n + (Decimal(b) + (o + (Decimal(c) + p)))));
             At(file, at, text) && at + |text| == |file|
    requires n != "" && o != "" && p != "" && !IsDigit(n[0]) && !IsDigit(o[0]) && !IsDigit(p[0])
    ensures At(file, at, m) && first == at + |m| && Reads(file, first, a, n)
    ensures second == first + |DigitsFrom(file, first)| + |n| && Reads(file, second, b, o)
    ensures third == second + |DigitsFrom(file, second)| + |o| && Reads(file, third, c, p)
    ensures |file| == third + |DigitsFrom(file, third)| + |p|
  {
    hide At, Value, Reads, Decimal;
    After(file, at, m, Decimal(a) + (n + (Decimal(b) + (o + (Decimal(c) + p)))));
    first := at + |m|;
    NumberIn(file, first, a, n, Decimal(b) + (o + (Decimal(c) + p)));
    second := first + |DigitsFrom(file, first)| + |n|;
    NumberIn(file, second, b, o, Decimal(c) + p);
    third := second + |DigitsFrom(file, second)| + |o|;
    NumberRead(file, third, c, p);
    DigitsRead(file, third, Decimal(c), p);
  }

  // A number before more text.
  lemma NumberIn(file: string, at: nat, n: nat, mark: string, rest: string)
    requires At(file, at, Decimal(n) + (mark + rest)) && mark != "" && !IsDigit(mark[0])
    ensures Reads(file, at, n, mark) && DigitsFrom(file, at) == Decimal(n) && At(file, at + |Decimal(n)| + |mark|, rest)
  {
    hide At, Value;
    DigitsRead(file, at, Decimal(n), mark + rest);
    NumberRead(file, at, n, mark + rest);
    After(file, at + |Decimal(n)|, mark, rest);
  }

  // ---- The writer ----

  class PdfDocument {
    var objects: seq<string>

    constructor ()
      ensures objects == []
    {
      objects := [];
    }

    // The number returned names the object from then on.
    method Add(body: string) returns (number: nat)
      modifies this
      ensures objects == old(objects) + [body] && number == |objects|
    {
      objects := objects + [body];
      return |objects|;
    }

    method Set(number: nat, body: string)
      requires 1 <= number <= |objects|
      modifies this
      ensures objects == old(objects)[number - 1 := body]
    {
      objects := objects[number - 1 := body];
    }

    method Render(root: nat) returns (file: string, ghost offsets: seq<nat>, ghost xref: nat)
      ensures Consistent(file, objects, root, offsets, xref)
    {
      var recorded;
      file, recorded := RenderObjects();
      offsets := recorded;
      var xrefStart := |file|;
      xref := xrefStart;
      file := RenderTable(file, recorded);
      ghost var written := file;
      var trailer := TrailerDictionary(|objects|, root) + StartLines(xrefStart);
      assert trailer == TrailerText(|objects|, root, xref);
      hide ObjectsAt, TableAt, TrailerText;
      ObjectsGrow(written, objects, offsets, |objects|, trailer);
      TableGrows(written, xref, |objects|, offsets, |objects|, trailer);
      file := file + trailer;
    }

    method RenderObjects() returns (file: string, offsets: seq<nat>)
      ensures |offsets| == |objects| && ObjectsAt(file, objects, offsets, |objects|)
    {
      file, offsets := HEADER, [];
      for index := 0 to |objects|
        invariant |offsets| == index && ObjectsAt(file, objects, offsets, index)
      {
        ghost var before := file;
        var text := Decimal(index + 1) + " 0 obj\n" + objects[index] + "\nendobj\n";
        assert text == ObjectText(index + 1, objects[index]);
        hide ObjectText;
        ObjectsGrow(before, objects, offsets, index, text);
        AtEnd(before, text);
        offsets := offsets + [|file|];
        file := file + text;
      }
    }

    method RenderTable(head: string, offsets: seq<nat>) returns (file: string)
      requires |offsets| == |objects| && ObjectsAt(head, objects, offsets, |objects|)
      ensures ObjectsAt(file, objects, offsets, |objects|)
      ensures TableAt(file, |head|, |objects|, offsets, |objects|)
    {
      var start := TABLE_MARK + TableSize(|objects|);
      assert start == TableHead(|objects|);
      hide ObjectsAt, TableHead, EntryText;
      file := head + start;
      AtEnd(head, start);
      ObjectsGrow(head, objects, offsets, |objects|, start);
      for index := 0 to |objects|
        invariant |file| == EntryAt(|head|, |objects|, offsets, index)
        invariant ObjectsAt(file, objects, offsets, |objects|)
        invariant TableAt(file, |head|, |objects|, offsets, index)
      {
        var text := Entry(offsets[index]);
        ObjectsGrow(file, objects, offsets, |objects|, text);
        TableNext(file, |head|, |objects|, offsets, index);
        hide TableAt, EntryAt;
        file := file + text;
      }
    }

    // One table line, %010d and the rest.
    method Entry(offset: nat) returns (text: string)
      ensures text == EntryText(offset)
    {
      text := Padded(offset, OFFSET_WIDTH) + " 00000 n \n";
    }
  }
}
