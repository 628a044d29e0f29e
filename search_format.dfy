/**
 * Flattening a hit list into one text: each hit's document becomes
 * `key: value` lines (nullish values skipped) and hits are separated by a blank line.
 */
module SearchFormat {
  import opened Types

  const NoResults: string := "No results found."
  const LineSep: string := "\n"
  const BlockSep: string := "\n\n"

  /** `Array.prototype.join`: the parts in order with `sep` between neighbours. */
  function Join(parts: seq<string>, sep: string): (r: string)
    ensures |parts| > 0 ==> parts[0] <= r
    ensures |parts| > 1 ==> parts[0] + sep <= r
  {
    if |parts| == 0 then "" else if |parts| == 1 then parts[0] else parts[0] + sep + Join(parts[1..], sep)
  }

  function SumLengths(parts: seq<string>): nat {
    if parts == [] then 0 else |parts[0]| + SumLengths(parts[1..])
  }

  /** Joining two non-empty lists puts exactly one separator at their boundary. */
  lemma {:induction false} JoinAppend(a: seq<string>, b: seq<string>, sep: string)
    requires |a| > 0 && |b| > 0
    ensures Join(a + b, sep) == Join(a, sep) + sep + Join(b, sep)
  {
    if |a| == 1 {
      assert (a + b)[1..] == b;
    } else {
      assert (a + b)[1..] == a[1..] + b;
      JoinAppend(a[1..], b, sep);
    }
  }

  /** n parts joined are their characters plus exactly n - 1 separators. */
  lemma {:induction false} JoinLength(parts: seq<string>, sep: string)
    requires |parts| > 0
    ensures |Join(parts, sep)| == SumLengths(parts) + (|parts| - 1) * |sep|
  {
    if |parts| > 1 {
      JoinLength(parts[1..], sep);
    }
  }

  /** Every character of every part appears in the joined text. */
  lemma {:induction false} JoinKeeps(parts: seq<string>, sep: string, i: nat, c: char)
    requires i < |parts| && c in parts[i]
    ensures c in Join(parts, sep)
  {
    if i > 0 {
      JoinKeeps(parts[1..], sep, i - 1, c);
    }
  }

  /** Joining empty parts yields separator characters only. */
  lemma {:induction false} JoinOfEmpties(parts: seq<string>, sep: string)
    requires forall i :: 0 <= i < |parts| ==> parts[i] == ""
    ensures forall c :: c in Join(parts, sep) ==> c in sep
  {
    if |parts| > 1 {
      JoinOfEmpties(parts[1..], sep);
      assert Join(parts, sep) == sep + Join(parts[1..], sep);
    }
  }

  /** The entries that are rendered: those whose value is neither `null` nor `undefined`, in order. */
  function Present(doc: Document): (r: Document)
    ensures |r| <= |doc|
  {
    if doc == [] then []
    else if IsNullish(doc[0].value) then Present(doc[1..])
    else [doc[0]] + Present(doc[1..])
  }

  lemma {:induction false} PresentMembers(doc: Document, e: Entry)
    ensures e in Present(doc) <==> e in doc && !IsNullish(e.value)
  {
    if doc != [] {
      PresentMembers(doc[1..], e);
      assert doc == [doc[0]] + doc[1..];
    }
  }

  /** Filtering distributes over concatenation, so the relative order of entries is kept. */
  lemma {:induction false} PresentAppend(a: Document, b: Document)
    ensures Present(a + b) == Present(a) + Present(b)
  {
    if a == [] {
      assert a + b == b;
    } else {
      assert (a + b)[0] == a[0];
      assert (a + b)[1..] == a[1..] + b;
      PresentAppend(a[1..], b);
    }
  }

  /** A document with no nullish value is rendered entry for entry. */
  lemma {:induction false} PresentKeepsAll(doc: Document)
    requires forall i :: 0 <= i < |doc| ==> !IsNullish(doc[i].value)
    ensures Present(doc) == doc
  {
    if doc != [] {
      PresentKeepsAll(doc[1..]);
    }
  }

  /** One rendered line `key: value`. */
  function RenderEntry(e: Entry): (line: string)
    ensures |line| == |e.key| + 2 + |Render(e.value)| && line[|e.key|] == ':'
    ensures line[|e.key|..|e.key| + 2] == ": "
    ensures line[..|e.key|] == e.key && line[|e.key| + 2..] == Render(e.value)
  {
    e.key + ": " + Render(e.value)
  }

  function RenderEntries(entries: Document): (lines: seq<string>)
    ensures |lines| == |entries|
    ensures forall i :: 0 <= i < |entries| ==> lines[i] == RenderEntry(entries[i])
  {
    seq(|entries|, i requires 0 <= i < |entries| => RenderEntry(entries[i]))
  }

  /** The block for one document: its present entries as lines joined by a newline. */
  function Block(doc: Document): (r: string)
    ensures Present(doc) != [] ==> RenderEntry(Present(doc)[0]) <= r
  {
    Join(RenderEntries(Present(doc)), LineSep)
  }

  /** A block is empty exactly when every value of the document is nullish; otherwise it holds a colon. */
  lemma BlockEmptyIff(doc: Document)
    ensures Block(doc) == "" <==> Present(doc) == []
    ensures Present(doc) != [] ==> ':' in Block(doc)
  {
    var lines := RenderEntries(Present(doc));
    if Present(doc) != [] {
      var e := Present(doc)[0];
      assert ':' in lines[0] by {
        assert lines[0][|e.key|] == ':';
      }
      JoinKeeps(lines, LineSep, 0, ':');
    }
  }

  function Blocks(hits: seq<Hit>): (r: seq<string>)
    ensures |r| == |hits|
    ensures forall i :: 0 <= i < |hits| ==> r[i] == Block(hits[i].document)
  {
    seq(|hits|, i requires 0 <= i < |hits| => Block(hits[i].document))
  }

  /** The text a search call reports: a fixed sentinel for no hits, else the blocks in hit order. */
  function FormatSearchResults(hits: seq<Hit>): (r: string)
    ensures |hits| == 0 ==> r == NoResults
    ensures |hits| > 0 ==> r == Join(Blocks(hits), BlockSep)
  {
    if |hits| == 0 then NoResults else Join(Blocks(hits), BlockSep)
  }

  /**
   * Formatting two non-empty hit lists one after the other gives their texts
   * separated by one blank line: hits are neither reordered nor merged.
   */
  lemma FormatAppend(a: seq<Hit>, b: seq<Hit>)
    requires |a| > 0 && |b| > 0
    ensures FormatSearchResults(a + b) == FormatSearchResults(a) + BlockSep + FormatSearchResults(b)
  {
    assert Blocks(a + b) == Blocks(a) + Blocks(b);
    JoinAppend(Blocks(a), Blocks(b), BlockSep);
  }

  /** n hits give their n blocks plus exactly n - 1 two-character separators. */
  lemma FormatLength(hits: seq<Hit>)
    requires |hits| > 0
    ensures |FormatSearchResults(hits)| == SumLengths(Blocks(hits)) + 2 * (|hits| - 1)
  {
    JoinLength(Blocks(hits), BlockSep);
  }

  /** The text is empty only for a single hit whose values are all nullish. */
  lemma FormatEmptyIff(hits: seq<Hit>)
    ensures FormatSearchResults(hits) == "" <==> |hits| == 1 && Present(hits[0].document) == []
  {
    if |hits| == 1 {
      assert Blocks(hits) == [Block(hits[0].document)];
      BlockEmptyIff(hits[0].document);
    } else if |hits| > 1 {
      FormatLength(hits);
    }
  }

  /** The sentinel has no colon, and a character that the blank-line separator lacks. */
  lemma SentinelCharacters()
    ensures ':' !in NoResults
    ensures 'N' in NoResults && 'N' !in BlockSep
  {
    assert NoResults[0] == 'N';
  }

  /** The sentinel cannot come from real hits: a non-empty hit list never formats to it. */
  lemma FormatSentinelOnlyForNoHits(hits: seq<Hit>)
    requires |hits| > 0
    ensures FormatSearchResults(hits) != NoResults
  {
    var blocks := Blocks(hits);
    var text := Join(blocks, BlockSep);
    SentinelCharacters();
    if i :| 0 <= i < |hits| && Present(hits[i].document) != [] {
      BlockEmptyIff(hits[i].document);
      JoinKeeps(blocks, BlockSep, i, ':');
      assert ':' in text;
    } else {
      forall i | 0 <= i < |blocks| ensures blocks[i] == "" {
        BlockEmptyIff(hits[i].document);
      }
      JoinOfEmpties(blocks, BlockSep);
      assert 'N' !in text;
    }
  }
}
