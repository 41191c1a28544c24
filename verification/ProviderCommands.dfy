/**
 The provider's input: chunks of text, as the pipe happens to deliver them, become one
 document per line.
 */
module ProviderCommands {
  import opened Common

  const MAX_COMMAND_BYTES: nat := 0x10_0000

  predicate HasNewline(s: string) {
    exists i :: 0 <= i < |s| && s[i] == '\n'
  }

  /** The position of the first newline. */
  function Newline(s: string): (i: nat)
    requires HasNewline(s)
    ensures i < |s| && s[i] == '\n' && forall j :: 0 <= j < i ==> s[j] != '\n'
  {
    if s[0] == '\n' then 0
    else
      assert HasNewline(s[1..]) by {
        var k :| 0 <= k < |s| && s[k] == '\n';
        assert s[1..][k - 1] == '\n';
      }
      1 + Newline(s[1..])
  }

  /** The documents of a whole input, and whether it ends without an error: every line up
      to the first one that is too long, and nothing left after the last newline. */
  function Documents(text: string): (seq<string>, bool)
    decreases |text|
  {
    if !HasNewline(text) then ([], text == "")
    else
      var i := Newline(text);
      if ByteLength(text[..i]) > MAX_COMMAND_BYTES then ([], false)
      else
        var rest := Documents(text[i + 1..]);
        ([text[..i]] + rest.0, rest.1)
  }

  function Concat(chunks: seq<string>): string {
    if chunks == [] then "" else chunks[0] + Concat(chunks[1..])
  }

  /** Taking the first line off the front of the buffer. */
  lemma FirstDocument(buffer: string, later: string)
    requires HasNewline(buffer)
    ensures var i := Newline(buffer);
            var rest := Documents(buffer[i + 1..] + later);
            Documents(buffer + later) ==
            if ByteLength(buffer[..i]) > MAX_COMMAND_BYTES then ([], false) else ([buffer[..i]] + rest.0, rest.1)
  {
    FirstLine(buffer, later);
  }

  lemma FirstLine(buffer: string, later: string)
    requires HasNewline(buffer)
    ensures var i, text := Newline(buffer), buffer + later;
            && HasNewline(text) && Newline(text) == i
            && text[..i] == buffer[..i] && text[i + 1..] == buffer[i + 1..] + later
  {
    var i, text := Newline(buffer), buffer + later;
    assert text[i] == '\n' && forall k :: 0 <= k < i ==> text[k] == buffer[k];
  }

  /** A first line that is already too long stays too long whatever follows. */
  lemma TooLongStays(buffer: string, rest: string)
    requires !HasNewline(buffer) && ByteLength(buffer) > MAX_COMMAND_BYTES
    ensures Documents(buffer + rest) == ([], false)
  {
    var text := buffer + rest;
    if HasNewline(text) {
      var i := Newline(text);
      assert forall k :: 0 <= k < |buffer| ==> text[k] == buffer[k];
      assert text[..i] == buffer + text[|buffer|..i];
      ByteLengthConcat(buffer, text[|buffer|..i]);
    }
  }

  /** What was yielded, and what the buffer and the chunks to come still yield. */
  ghost predicate Splits(documents: seq<string>, unread: string, text: string) {
    documents + Documents(unread).0 == Documents(text).0 && Documents(unread).1 == Documents(text).1
  }

  /** The stream of documents does not depend on how the input was cut into chunks. */
  method CommandDocuments(chunks: seq<string>) returns (documents: seq<string>, ok: bool)
    ensures (documents, ok) == Documents(Concat(chunks))
  {
    hide Documents;
    documents := [];
    var buffer := "";
    assert chunks[0..] == chunks && buffer + Concat(chunks) == Concat(chunks);
    assert documents + Documents(Concat(chunks)).0 == Documents(Concat(chunks)).0;
    for n := 0 to |chunks|
      invariant !HasNewline(buffer)
      invariant Splits(documents, buffer + Concat(chunks[n..]), Concat(chunks))
    {
      ghost var later := Concat(chunks[n + 1..]);
      assert chunks[n..][1..] == chunks[n + 1..];
      assert buffer + Concat(chunks[n..]) == (buffer + chunks[n]) + later;
      buffer := buffer + chunks[n];
      while HasNewline(buffer)
        invariant Splits(documents, buffer + later, Concat(chunks))
        decreases |buffer|
      {
        var newline := Newline(buffer);
        var document := buffer[..newline];
        FirstDocument(buffer, later);
        if ByteLength(document) > MAX_COMMAND_BYTES {
          assert documents + [] == documents;
          return documents, false;
        }
        ghost var rest := Documents(buffer[newline + 1..] + later).0;
        assert documents + ([document] + rest) == (documents + [document]) + rest;
        buffer := buffer[newline + 1..];
        documents := documents + [document];
      }
      if ByteLength(buffer) > MAX_COMMAND_BYTES {
        TooLongStays(buffer, later);
        assert documents + [] == documents;
        return documents, false;
      }
    }
    assert buffer + Concat(chunks[|chunks|..]) == buffer;
    Leftover(buffer);
    assert documents + [] == documents;
    return documents, buffer == "";
  }

  lemma Leftover(buffer: string)
    requires !HasNewline(buffer)
    ensures Documents(buffer) == ([], buffer == "")
  {}

  function Terminated(lines: seq<string>): string {
    if lines == [] then "" else lines[0] + "\n" + Terminated(lines[1..])
  }

  /** Lines that fit come out one by one, in order. */
  lemma {:induction false} EveryLineIsADocument(lines: seq<string>)
    requires forall i :: 0 <= i < |lines| ==> !HasNewline(lines[i]) && ByteLength(lines[i]) <= MAX_COMMAND_BYTES
    ensures Documents(Terminated(lines)) == (lines, true)
  {
    if lines != [] {
      hide Documents;
      EveryLineIsADocument(lines[1..]);
      LineAtFront(lines[0], Terminated(lines[1..]));
      assert lines == [lines[0]] + lines[1..];
    } else {
      Leftover("");
    }
  }

  /** A line that was cut off yields no document, however many whole ones precede it: the
      provider answers each complete command, and no part of one. */
  lemma {:induction false} CutOffLinesAreNoDocuments(lines: seq<string>, part: string)
    requires forall i :: 0 <= i < |lines| ==> !HasNewline(lines[i]) && ByteLength(lines[i]) <= MAX_COMMAND_BYTES
    requires !HasNewline(part)
    ensures Documents(Terminated(lines) + part) == (lines, part == "")
  {
    if lines == [] {
      assert Terminated(lines) + part == part;
      Leftover(part);
    } else {
      hide Documents;
      CutOffLinesAreNoDocuments(lines[1..], part);
      LineAtFront(lines[0], Terminated(lines[1..]) + part);
      assert Terminated(lines) + part == lines[0] + "\n" + (Terminated(lines[1..]) + part);
      assert lines == [lines[0]] + lines[1..];
    }
  }

  lemma LineAtFront(line: string, later: string)
    requires !HasNewline(line) && ByteLength(line) <= MAX_COMMAND_BYTES
    ensures Documents(line + "\n" + later) == ([line] + Documents(later).0, Documents(later).1)
  {
    hide Documents;
    var buffer := line + "\n";
    assert buffer[|line|] == '\n' && forall k :: 0 <= k < |line| ==> buffer[k] == line[k];
    assert Newline(buffer) == |line|;
    FirstDocument(buffer, later);
    assert buffer[..|line|] == line && buffer[|line| + 1..] + later == later;
  }
}
