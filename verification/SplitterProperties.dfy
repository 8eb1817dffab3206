/** What a stream of chunks means: the chunking is irrelevant, documents are exactly the
    bracketed texts of a grammar, and no character is lost. */
module SplitterProperties {
  import opened DocumentSplitter

  function Flatten(chunks: seq<string>): string {
    if chunks == [] then "" else chunks[0] + Flatten(chunks[1..])
  }

  /** The reader's loop: feed chunk after chunk until one is refused. */
  function FeedAll(s: Scanner, chunks: seq<string>, maxSize: int): Outcome
    requires s.Sound()
    decreases |chunks|
  {
    if chunks == [] then Scanned(s, [])
    else match Scan(s, chunks[0], maxSize)
      case Failed(error) => Failed(error)
      case Scanned(state, documents) => FeedAll(state, chunks[1..], maxSize).After(documents)
  }

  /** The documents the reader's loop hands on; a refused chunk hands on none. */
  function Delivered(s: Scanner, chunks: seq<string>, maxSize: int): seq<string>
    requires s.Sound()
    decreases |chunks|
  {
    if chunks == [] || Scan(s, chunks[0], maxSize).Failed? then []
    else
      var first := Scan(s, chunks[0], maxSize);
      first.documents + Delivered(first.state, chunks[1..], maxSize)
  }

  lemma AfterAfter(r: Outcome, first: seq<string>, second: seq<string>)
    ensures r.After(second).After(first) == r.After(first + second)
    ensures r.After([]) == r
  {
    if r.Scanned? {
      assert first + (second + r.documents) == first + second + r.documents;
      assert [] + r.documents == r.documents;
    }
  }

  /** Scanning `a + b` is scanning `a` and then, from where that stopped, `b`. */
  lemma {:induction false} ScanAppend(s: Scanner, a: string, b: string, maxSize: int)
    requires s.Sound()
    ensures Scan(s, a + b, maxSize) == match Scan(s, a, maxSize)
              case Failed(error) => Failed(error)
              case Scanned(state, documents) => Scan(state, b, maxSize).After(documents)
    decreases |a|
  {
    if a == "" {
      assert a + b == b;
      AfterAfter(Scan(s, b, maxSize), [], []);
    } else if s.Fits(maxSize) {
      assert (a + b)[0] == a[0] && (a + b)[1..] == a[1..] + b;
      match MoveOn(s, a[0])
      case Skip => ScanAppend(s, a[1..], b, maxSize);
      case Refuse =>
      case Stay(next) => ScanAppend(next, a[1..], b, maxSize);
      case Close(document) =>
        ScanAppend(IDLE, a[1..], b, maxSize);
        var rest := Scan(IDLE, a[1..], maxSize);
        if rest.Scanned? {
          AfterAfter(Scan(rest.state, b, maxSize), [document], rest.documents);
        }
    }
  }

  /** Feeding chunk by chunk is scanning the whole text: same documents in order, same final
      depth, string, escape and buffer, or the same kind of error. */
  lemma {:induction false} ChunksAreTheText(s: Scanner, chunks: seq<string>, maxSize: int)
    requires s.Sound() && s.Fits(maxSize)
    ensures FeedAll(s, chunks, maxSize) == Scan(s, Flatten(chunks), maxSize)
    decreases |chunks|
  {
    if chunks == [] {
    } else {
      ScanAppend(s, chunks[0], Flatten(chunks[1..]), maxSize);
      var first := Scan(s, chunks[0], maxSize);
      if first.Scanned? {
        ChunksAreTheText(first.state, chunks[1..], maxSize);
      }
    }
  }

  /** Two chunkings of one text cannot be told apart, also not by whether or how they fail. */
  lemma ChunkingIsIrrelevant(left: seq<string>, right: seq<string>, maxSize: int)
    requires Flatten(left) == Flatten(right)
    ensures FeedAll(IDLE, left, maxSize) == FeedAll(IDLE, right, maxSize)
  {
    ChunksAreTheText(IDLE, left, maxSize);
    ChunksAreTheText(IDLE, right, maxSize);
  }

  /** The documents completed before the first refused character. */
  function Completed(s: Scanner, text: string, maxSize: int): seq<string>
    requires s.Sound()
    decreases |text|
  {
    if !s.Fits(maxSize) || text == "" then []
    else match MoveOn(s, text[0])
      case Skip => Completed(s, text[1..], maxSize)
      case Refuse => []
      case Stay(next) => Completed(next, text[1..], maxSize)
      case Close(document) => if |document| > maxSize then [] else [document] + Completed(IDLE, text[1..], maxSize)
  }

  lemma {:induction false} CompletedAppend(s: Scanner, a: string, b: string, maxSize: int)
    requires s.Sound()
    ensures match Scan(s, a, maxSize)
            case Scanned(state, documents) =>
              && documents == Completed(s, a, maxSize)
              && Completed(s, a + b, maxSize) == documents + Completed(state, b, maxSize)
            case Failed(_) => Completed(s, a + b, maxSize) == Completed(s, a, maxSize)
    decreases |a|
  {
    hide MoveOn;
    if a == "" {
      assert a + b == b;
    } else if s.Fits(maxSize) {
      assert (a + b)[0] == a[0] && (a + b)[1..] == a[1..] + b;
      match MoveOn(s, a[0])
      case Skip => CompletedAppend(s, a[1..], b, maxSize);
      case Refuse =>
      case Stay(next) => CompletedAppend(next, a[1..], b, maxSize);
      case Close(document) => CompletedAppend(IDLE, a[1..], b, maxSize);
    }
  }

  /** The documents a refused chunk completed before the character it was refused for. */
  function Lost(s: Scanner, chunks: seq<string>, maxSize: int): seq<string>
    requires s.Sound()
    decreases |chunks|
  {
    if chunks == [] then []
    else match Scan(s, chunks[0], maxSize)
      case Failed(_) => Completed(s, chunks[0], maxSize)
      case Scanned(state, _) => Lost(state, chunks[1..], maxSize)
  }

  /** Every document completed before the first error is handed on, or lost with the chunk that
      holds the error; without an error none is lost. */
  lemma {:induction false} DeliveredOrLost(s: Scanner, chunks: seq<string>, maxSize: int)
    requires s.Sound() && s.Fits(maxSize)
    ensures Completed(s, Flatten(chunks), maxSize) == Delivered(s, chunks, maxSize) + Lost(s, chunks, maxSize)
    ensures FeedAll(s, chunks, maxSize).Scanned? ==> Lost(s, chunks, maxSize) == []
    decreases |chunks|
  {
    if chunks != [] {
      var first, rest := Scan(s, chunks[0], maxSize), Flatten(chunks[1..]);
      CompletedAppend(s, chunks[0], rest, maxSize);
      if first.Scanned? {
        var later := Delivered(first.state, chunks[1..], maxSize);
        assert first.documents + (later + Lost(first.state, chunks[1..], maxSize))
            == first.documents + later + Lost(first.state, chunks[1..], maxSize);
        DeliveredOrLost(first.state, chunks[1..], maxSize);
      }
    }
  }

  /** On an error the chunking does show: fed whole, `{}x` loses the document it completed. */
  lemma ChunkingShowsOnAnError()
    ensures FeedAll(IDLE, ["{}x"], 9) == FeedAll(IDLE, ["{}", "x"], 9) == Failed(InvalidData)
    ensures Delivered(IDLE, ["{}x"], 9) == [] && Delivered(IDLE, ["{}", "x"], 9) == ["{}"]
  {
    ScanBraces();
    ScanAppend(IDLE, "{}", "x", 9);
    assert "{}" + "x" == "{}x";
    assert Scan(IDLE, "x", 9) == Failed(InvalidData);
    ChunksAreTheText(IDLE, ["{}x"], 9);
    ChunksAreTheText(IDLE, ["{}", "x"], 9);
    assert ["{}", "x"][1..] == ["x"];
    assert Delivered(IDLE, ["x"], 9) == [];
  }

  lemma ScanBraces()
    ensures Scan(IDLE, "{}", 9) == Scanned(IDLE, ["{}"])
  {
    var s := IDLE.Advance('{');
    assert "{}"[1..] == "}" && "}"[1..] == "" && s.Advance('}').buffer == "{}";
    assert Scan(IDLE, "", 9).After(["{}"]) == Scanned(IDLE, ["{}"]);
    assert Scan(s, "}", 9) == Scanned(IDLE, ["{}"]);
  }

  /** What the JSON decoder makes of a text. */
  datatype Parsed = AnObject | AnotherValue | NoJson

  /** The texts that are objects, up to the first that is no JSON. */
  function Objects(parse: string -> Parsed, texts: seq<string>): seq<string> {
    if texts == [] then []
    else match parse(texts[0])
      case AnObject => [texts[0]] + Objects(parse, texts[1..])
      case AnotherValue => Objects(parse, texts[1..])
      case NoJson => []
  }

  predicate AllJson(parse: string -> Parsed, texts: seq<string>) { forall t <- texts :: parse(t) != NoJson }

  lemma AllJsonJoin(parse: string -> Parsed, first: seq<string>, second: seq<string>)
    ensures AllJson(parse, first + second) <==> AllJson(parse, first) && AllJson(parse, second)
  {
    assert forall t :: t in first + second <==> t in first || t in second;
  }

  lemma {:induction false} ObjectsJoin(parse: string -> Parsed, first: seq<string>, second: seq<string>)
    ensures Objects(parse, first + second)
            == Objects(parse, first) + if AllJson(parse, first) then Objects(parse, second) else []
  {
    hide AllJson;
    AllJsonHead(parse, first);
    if first == [] {
      assert first + second == second;
    } else {
      var rest := first[1..];
      ObjectsJoin(parse, rest, second);
      assert (first + second)[0] == first[0] && (first + second)[1..] == rest + second;
      assert [first[0]] + (Objects(parse, rest) + Objects(parse, second))
             == [first[0]] + Objects(parse, rest) + Objects(parse, second);
    }
  }

  lemma AllJsonHead(parse: string -> Parsed, texts: seq<string>)
    ensures AllJson(parse, texts) <==> texts == [] || (parse(texts[0]) != NoJson && AllJson(parse, texts[1..]))
  {
    if texts != [] {
      assert texts == [texts[0]] + texts[1..];
    }
  }

  method YieldObjects(parse: string -> Parsed, texts: seq<string>) returns (objects: seq<string>, bad: bool)
    ensures objects == Objects(parse, texts) && (bad <==> !AllJson(parse, texts))
  {
    objects, bad := [], false;
    for i := 0 to |texts|
      invariant Objects(parse, texts) == objects + Objects(parse, texts[i..]) && AllJson(parse, texts[..i])
    {
      assert texts[i..][1..] == texts[i + 1..] && texts[..i + 1] == texts[..i] + [texts[i]];
      match parse(texts[i])
      case AnObject => objects := objects + [texts[i]];
      case AnotherValue =>
      case NoJson => return objects, true;
    }
    assert texts[..|texts|] == texts;
  }

  /** A stream of which `i` chunks were read: its documents so far, and the scanner it is in. */
  ghost predicate ReadUpTo(chunks: seq<string>, maxSize: int, i: nat, s: Scanner, documents: seq<string>)
    requires i <= |chunks|
  {
    && s.Sound() && s.Fits(maxSize)
    && Delivered(IDLE, chunks, maxSize) == documents + Delivered(s, chunks[i..], maxSize)
    && FeedAll(IDLE, chunks, maxSize) == FeedAll(s, chunks[i..], maxSize).After(documents)
  }

  lemma ReadOneMore(chunks: seq<string>, maxSize: int, i: nat, s: Scanner, documents: seq<string>)
    requires i < |chunks| && ReadUpTo(chunks, maxSize, i, s, documents)
    ensures match Scan(s, chunks[i], maxSize)
            case Failed(_) => Delivered(IDLE, chunks, maxSize) == documents && FeedAll(IDLE, chunks, maxSize).Failed?
            case Scanned(state, more) => ReadUpTo(chunks, maxSize, i + 1, state, documents + more)
  {
    hide Scan;
    assert chunks[i..][0] == chunks[i] && chunks[i..][1..] == chunks[i + 1..];
    match Scan(s, chunks[i], maxSize)
    case Failed(_) => assert documents + [] == documents;
    case Scanned(state, more) =>
      AfterAfter(FeedAll(state, chunks[i + 1..], maxSize), documents, more);
      assert documents + (more + Delivered(state, chunks[i + 1..], maxSize))
             == documents + more + Delivered(state, chunks[i + 1..], maxSize);
  }

  /** A stream ends well in what was delivered, or it was refused. */
  lemma ReadToTheEnd(chunks: seq<string>, maxSize: int, s: Scanner, documents: seq<string>)
    requires ReadUpTo(chunks, maxSize, |chunks|, s, documents)
    ensures Delivered(IDLE, chunks, maxSize) == documents
            && Scan(IDLE, Flatten(chunks), maxSize) == Scanned(s, documents)
  {
    hide Scan;
    ChunksAreTheText(IDLE, chunks, maxSize);
    assert documents + [] == documents;
  }

  /** After `i` chunks: every document so far is JSON, and its objects were yielded. */
  ghost predicate YieldedUpTo(parse: string -> Parsed, chunks: seq<string>, maxSize: int, i: nat, s: Scanner,
      documents: seq<string>, objects: seq<string>)
    requires i <= |chunks|
  {
    AllJson(parse, documents) && objects == Objects(parse, documents) && ReadUpTo(chunks, maxSize, i, s, documents)
  }

  /** The documents of the whole text have been yielded up to the one that is no JSON. */
  ghost predicate YieldedAll(parse: string -> Parsed, chunks: seq<string>, maxSize: int, objects: seq<string>) {
    objects == Objects(parse, Delivered(IDLE, chunks, maxSize))
  }

  lemma YieldMore(parse: string -> Parsed, chunks: seq<string>, maxSize: int, i: nat, s: Scanner,
      documents: seq<string>, objects: seq<string>)
    requires i < |chunks| && YieldedUpTo(parse, chunks, maxSize, i, s, documents, objects)
    ensures match Scan(s, chunks[i], maxSize)
            case Failed(_) =>
              YieldedAll(parse, chunks, maxSize, objects) && Scan(IDLE, Flatten(chunks), maxSize).Failed?
            case Scanned(state, more) =>
              if AllJson(parse, more)
              then YieldedUpTo(parse, chunks, maxSize, i + 1, state, documents + more, objects + Objects(parse, more))
              else YieldedAll(parse, chunks, maxSize, objects + Objects(parse, more))
                   && !AllJson(parse, Delivered(IDLE, chunks, maxSize))
  {
    assert s.Sound();
    hide Scan, Objects, AllJson, Delivered, FeedAll, Flatten, ReadUpTo;
    ReadOneMore(chunks, maxSize, i, s, documents);
    match Scan(s, chunks[i], maxSize)
    case Failed(_) => ChunksAreTheText(IDLE, chunks, maxSize);
    case Scanned(state, more) =>
      ObjectsJoin(parse, documents, more);
      AllJsonJoin(parse, documents, more);
      DocumentsAreDelivered(chunks, maxSize, i + 1, state, documents + more);
      var rest := Delivered(state, chunks[i + 1..], maxSize);
      ObjectsJoin(parse, documents + more, rest);
      AllJsonJoin(parse, documents + more, rest);
      assert Objects(parse, documents + more) + [] == Objects(parse, documents + more);
  }

  /** The reader of one stream: it yields the objects of each chunk as they come, and ends with an
      error for a refused chunk, a document that is no JSON, or an end inside a document. */
  method ReadStream(parse: string -> Parsed, chunks: seq<string>, tail: string, maxSize: int)
    returns (objects: seq<string>, error: bool)
    ensures objects == Objects(parse, Delivered(IDLE, chunks, maxSize))
    ensures
      var documents := Delivered(IDLE, chunks, maxSize);
      !error <==>
        AllSpace(tail) && AllJson(parse, documents) && Scan(IDLE, Flatten(chunks), maxSize) == Scanned(IDLE, documents)
  {
    hide Scan, Objects, AllJson, AfterRefusal, Delivered, FeedAll, Flatten, ReadUpTo, JsonDocumentSplitter.Valid,
      AllSpace, Scanner.Fits, YieldedUpTo;
    var splitter := new JsonDocumentSplitter(maxSize);
    objects := [];
    ghost var documents := [];
    NothingRead(parse, chunks, maxSize);
    for i := 0 to |chunks|
      invariant splitter.Valid() && fresh(splitter) && splitter.maxSize == maxSize
      invariant YieldedUpTo(parse, chunks, maxSize, i, splitter.State(), documents, objects)
    {
      YieldMore(parse, chunks, maxSize, i, splitter.State(), documents, objects);
      var r := splitter.Feed(chunks[i]);
      if r.Raised? {
        return objects, true;
      }
      var found, bad := YieldObjects(parse, r.documents);
      documents, objects := documents + r.documents, objects + found;
      if bad {
        return objects, true;
      }
    }
    AllRead(parse, chunks, maxSize, splitter.State(), documents, objects);
    error := splitter.Finish(tail);
  }

  lemma NothingRead(parse: string -> Parsed, chunks: seq<string>, maxSize: int)
    ensures YieldedUpTo(parse, chunks, maxSize, 0, IDLE, [], [])
  {
    assert chunks[0..] == chunks;
    assert forall documents: seq<string> :: [] + documents == documents;
  }

  lemma AllRead(parse: string -> Parsed, chunks: seq<string>, maxSize: int, s: Scanner, documents: seq<string>,
      objects: seq<string>)
    requires YieldedUpTo(parse, chunks, maxSize, |chunks|, s, documents, objects)
    ensures Delivered(IDLE, chunks, maxSize) == documents && objects == Objects(parse, documents)
    ensures AllJson(parse, documents) && Scan(IDLE, Flatten(chunks), maxSize) == Scanned(s, documents)
  {
    hide Scan, Objects, AllJson, Delivered, FeedAll, Flatten, ReadUpTo;
    ReadToTheEnd(chunks, maxSize, s, documents);
  }

  lemma DocumentsAreDelivered(chunks: seq<string>, maxSize: int, i: nat, s: Scanner, documents: seq<string>)
    requires i <= |chunks| && ReadUpTo(chunks, maxSize, i, s, documents)
    ensures s.Sound() && Delivered(IDLE, chunks, maxSize) == documents + Delivered(s, chunks[i..], maxSize)
  {
  }

  // ---------------------------------------------------------------------------------------
  // The grammar of a document
  // ---------------------------------------------------------------------------------------

  /** The inside of a document: plain characters, strings and nested documents. Bracket kinds
      are independent of each other, as in the scanner. */
  datatype Body =
    | End
    | Plain(c: char, rest: Body)
    | Quoted(chars: string, rest: Body)
    | Nested(open: char, inner: Body, close: char, rest: Body)

  function Render(body: Body): string {
    match body
    case End => ""
    case Plain(c, rest) => [c] + Render(rest)
    case Quoted(chars, rest) => "\"" + chars + "\"" + Render(rest)
    case Nested(open, inner, close, rest) => [open] + Render(inner) + [close] + Render(rest)
  }

  /** String content: every quote is escaped and no escape is left open (section 7 of RFC 8259). */
  predicate Content(chars: string) {
    chars == "" ||
    (if chars[0] == '\\' then |chars| > 1 && Content(chars[2..]) else chars[0] != '"' && Content(chars[1..]))
  }

  predicate WellFormed(body: Body) {
    match body
    case End => true
    case Plain(c, rest) => c != '"' && !IsOpen(c) && !IsClose(c) && WellFormed(rest)
    case Quoted(chars, rest) => Content(chars) && WellFormed(rest)
    case Nested(open, inner, close, rest) => IsOpen(open) && IsClose(close) && WellFormed(inner) && WellFormed(rest)
  }

  predicate Encloses(text: string, open: char, body: Body, close: char) {
    IsOpen(open) && IsClose(close) && WellFormed(body) && text == [open] + Render(body) + [close]
  }

  ghost predicate IsDocument(text: string) {
    exists open, body, close :: Encloses(text, open, body, close)
  }

  /** Characters read inside a document without looking at the size or at closings. */
  function Read(s: Scanner, text: string): Scanner
    decreases |text|
  {
    if text == "" then s else Read(s.Advance(text[0]), text[1..])
  }

  /** Every prefix of `text` leaves the depth at `floor` or more. */
  predicate Above(s: Scanner, text: string, floor: nat)
    decreases |text|
  {
    s.depth >= floor && (text == "" || Above(s.Advance(text[0]), text[1..], floor))
  }

  /** No prefix of `text` closes the document `s` is in. */
  predicate Inside(s: Scanner, text: string) { Above(s, text, 1) }

  lemma {:induction false} ReadAppend(s: Scanner, a: string, b: string)
    ensures Read(s, a + b) == Read(Read(s, a), b)
    ensures forall floor :: Above(s, a + b, floor) <==> Above(s, a, floor) && Above(Read(s, a), b, floor)
    decreases |a|
  {
    if a == "" {
      assert a + b == b;
    } else {
      assert (a + b)[0] == a[0] && (a + b)[1..] == a[1..] + b;
      ReadAppend(s.Advance(a[0]), a[1..], b);
    }
  }

  function Grown(s: Scanner, text: string): Scanner { s.(buffer := s.buffer + text) }

  /** String content keeps the scanner in the string. */
  lemma {:induction false} ReadContent(s: Scanner, chars: string)
    requires s.depth > 0 && s.inString && !s.escape && Content(chars)
    ensures Read(s, chars) == Grown(s, chars) && Inside(s, chars)
    decreases |chars|
  {
    if chars == "" {
      assert s.buffer + chars == s.buffer;
    } else if chars[0] == '\\' {
      var t := s.Advance(chars[0]).Advance(chars[1]);
      assert chars[1..][1..] == chars[2..] && chars[1..][0] == chars[1];
      assert s.buffer + [chars[0]] + [chars[1]] + chars[2..] == s.buffer + chars;
      ReadContent(t, chars[2..]);
    } else {
      assert s.buffer + [chars[0]] + chars[1..] == s.buffer + chars;
      ReadContent(s.Advance(chars[0]), chars[1..]);
    }
  }

  lemma ReadOne(s: Scanner, c: char)
    ensures Read(s, [c]) == s.Advance(c)
    ensures Inside(s, [c]) <==> s.depth > 0 && s.Advance(c).depth > 0
  {
    assert [c][1..] == "";
    assert Read(s, [c]) == Read(s.Advance(c), "");
    assert Above(s, [c], 1) == (s.depth >= 1 && Above(s.Advance(c), "", 1));
  }

  /** `text` is read inside a document at constant depth, in no string at either end. */
  predicate Kept(s: Scanner, text: string) {
    Read(s, text) == Grown(s, text) && Inside(s, text)
  }

  lemma KeptAppend(s: Scanner, a: string, b: string)
    requires Kept(s, a) && Kept(Grown(s, a), b)
    ensures Kept(s, a + b)
  {
    ReadAppend(s, a, b);
    assert s.buffer + a + b == s.buffer + (a + b);
  }

  /** An opening character, a kept inside and the character that undoes the opening. */
  lemma KeptEnclosed(s: Scanner, open: char, inner: string, close: char)
    requires s.depth > 0 && Kept(s.Advance(open), inner)
    requires Grown(s.Advance(open), inner).Advance(close) == Grown(s, [open] + inner + [close])
    ensures Kept(s, [open] + inner + [close])
  {
    ReadOne(s, open);
    ReadOne(Grown(s.Advance(open), inner), close);
    ReadAppend(s, [open], inner);
    ReadAppend(s, [open] + inner, [close]);
  }

  /** A well-formed body is read at constant depth, in no string, without closing anything. */
  lemma {:induction false} ReadBody(s: Scanner, body: Body)
    requires s.depth > 0 && !s.inString && !s.escape && WellFormed(body)
    ensures Kept(s, Render(body))
    decreases body
  {
    match body
    case End =>
      assert s.buffer + "" == s.buffer;
    case Plain(c, rest) =>
      ReadOne(s, c);
      ReadBody(Grown(s, [c]), rest);
      KeptAppend(s, [c], Render(rest));
    case Quoted(chars, rest) =>
      var text := "\"" + chars + "\"";
      ReadContent(s.Advance('"'), chars);
      assert s.buffer + "\"" + chars + "\"" == s.buffer + text;
      KeptEnclosed(s, '"', chars, '"');
      ReadBody(Grown(s, text), rest);
      KeptAppend(s, text, Render(rest));
    case Nested(open, inner, close, rest) =>
      var text := [open] + Render(inner) + [close];
      ReadBody(s.Advance(open), inner);
      assert s.buffer + [open] + Render(inner) + [close] == s.buffer + text;
      KeptEnclosed(s, open, Render(inner), close);
      ReadBody(Grown(s, text), rest);
      KeptAppend(s, text, Render(rest));
  }

  /** The text up to the quote that ends a string is string content. */
  lemma {:induction false} SplitAtQuote(s: Scanner, text: string) returns (chars: string, rest: string)
    requires s.inString && !s.escape && !Read(s, text).inString
    ensures text == chars + "\"" + rest && Content(chars)
    decreases |text|
  {
    if text[0] == '"' {
      chars, rest := "", text[1..];
    } else if text[0] == '\\' {
      var t := s.Advance(text[0]);
      if text[1..] == "" {
        assert false;
      }
      assert text[1..][0] == text[1] && text[1..][1..] == text[2..];
      assert Read(s, text) == Read(t, text[1..]) == Read(t.Advance(text[1]), text[2..]);
      chars, rest := SplitAtQuote(t.Advance(text[1]), text[2..]);
      var longer := text[..2] + chars;
      assert longer[2..] == chars && longer[0] == text[0];
      chars := longer;
      assert text == text[..2] + text[2..];
    } else {
      chars, rest := SplitAtQuote(s.Advance(text[0]), text[1..]);
      var longer := [text[0]] + chars;
      assert longer[1..] == chars;
      chars := longer;
    }
  }

  /** The text up to the first return to `floor` stays above it and ends with a closing. */
  lemma {:induction false} SplitAtClose(s: Scanner, text: string, floor: nat)
    returns (inner: string, close: char, rest: string)
    requires s.depth > floor && Read(s, text).depth <= floor
    ensures text == inner + [close] + rest && Above(s, inner, floor + 1)
    ensures var t := Read(s, inner); t.depth == floor + 1 && !t.inString && IsClose(close)
    decreases |text|
  {
    var t := s.Advance(text[0]);
    if t.depth == floor {
      inner, close, rest := "", text[0], text[1..];
    } else {
      inner, close, rest := SplitAtClose(t, text[1..], floor);
      var longer := [text[0]] + inner;
      assert longer[0] == text[0] && longer[1..] == inner;
      inner := longer;
    }
  }

  /** After a kept piece, the rest of a text can be read on its own. */
  lemma AfterPiece(s: Scanner, piece: string, tail: string)
    requires Kept(s, piece) && Above(s, piece + tail, s.depth)
    ensures Above(Grown(s, piece), tail, s.depth) && Read(Grown(s, piece), tail) == Read(s, piece + tail)
  {
    ReadAppend(s, piece, tail);
  }

  /** The string a text begins with. */
  lemma FirstString(s: Scanner, text: string) returns (chars: string, tail: string)
    requires s.depth > 0 && !s.inString && !s.escape && text != "" && text[0] == '"'
    requires Above(s, text, s.depth) && !Read(s, text).inString
    ensures Content(chars)
    ensures var piece := "\"" + chars + "\"";
            && text == piece + tail && Above(Grown(s, piece), tail, s.depth)
            && Read(Grown(s, piece), tail) == Read(s, text)
  {
    chars, tail := SplitAtQuote(s.Advance('"'), text[1..]);
    var piece := "\"" + chars + "\"";
    ReadBody(s, Quoted(chars, End));
    assert Render(Quoted(chars, End)) == piece && text == piece + tail;
    AfterPiece(s, piece, tail);
  }

  /** The text after a nested document, once its inside is known to be a body. */
  lemma AfterGroup(s: Scanner, open: char, within: Body, close: char, tail: string)
    requires s.depth > 0 && !s.inString && !s.escape && IsOpen(open) && IsClose(close) && WellFormed(within)
    requires Above(s, [open] + Render(within) + [close] + tail, s.depth)
    ensures var piece := [open] + Render(within) + [close];
            && Above(Grown(s, piece), tail, s.depth)
            && Read(Grown(s, piece), tail) == Read(s, piece + tail)
  {
    var piece := [open] + Render(within) + [close];
    ReadBody(s, Nested(open, within, close, End));
    assert Render(Nested(open, within, close, End)) == piece;
    AfterPiece(s, piece, tail);
  }

  /** A text that returns to its own depth, never goes below it and ends in no string is the
      rendering of a body. */
  lemma {:induction false} Parse(s: Scanner, text: string) returns (body: Body)
    requires s.depth > 0 && !s.inString && !s.escape
    requires Above(s, text, s.depth) && Read(s, text).depth == s.depth && !Read(s, text).inString
    ensures WellFormed(body) && Render(body) == text
    decreases |text|
  {
    if text == "" {
      body := End;
    } else if text[0] == '"' {
      var chars, tail := FirstString(s, text);
      var rest := Parse(Grown(s, "\"" + chars + "\""), tail);
      body := Quoted(chars, rest);
    } else if IsOpen(text[0]) {
      var inner, close, tail := SplitAtClose(s.Advance(text[0]), text[1..], s.depth);
      var within := Parse(s.Advance(text[0]), inner);
      assert text == [text[0]] + inner + [close] + tail;
      AfterGroup(s, text[0], within, close, tail);
      var rest := Parse(Grown(s, [text[0]] + inner + [close]), tail);
      body := Nested(text[0], within, close, rest);
    } else {
      var rest := Parse(s.Advance(text[0]), text[1..]);
      body := Plain(text[0], rest);
    }
  }

  /** While no document closes, scanning is reading. */
  lemma {:induction false} ScanIsRead(s: Scanner, a: string, b: string, maxSize: int)
    requires s.Sound() && Inside(s, a) && |s.buffer| + |a| <= maxSize
    ensures Read(s, a).Sound() && Read(s, a).buffer == s.buffer + a
    ensures Scan(s, a + b, maxSize) == Scan(Read(s, a), b, maxSize)
    decreases |a|
  {
    if a == "" {
      assert a + b == b && s.buffer + a == s.buffer;
    } else {
      var next := s.Advance(a[0]);
      assert (a + b)[0] == a[0] && (a + b)[1..] == a[1..] + b;
      assert next.buffer + a[1..] == s.buffer + a;
      assert Inside(next, a[1..]);
      ScanIsRead(next, a[1..], b, maxSize);
    }
  }

  /** The closing character of a document, and what follows it. */
  lemma ScanClose(s: Scanner, close: char, after: string, maxSize: int)
    requires s.Sound() && s.depth == 1 && !s.inString && IsClose(close) && |s.buffer| + 1 <= maxSize
    ensures Scan(s, [close] + after, maxSize) == Scan(IDLE, after, maxSize).After([s.buffer + [close]])
  {
    var text := [close] + after;
    assert text[0] == close && text[1..] == after;
  }

  /** A document of the grammar within the bound comes out whole, whatever follows it. */
  lemma ScanDocument(document: string, after: string, maxSize: int)
    requires IsDocument(document) && |document| <= maxSize
    ensures Scan(IDLE, document + after, maxSize) == Scan(IDLE, after, maxSize).After([document])
  {
    var open, body, close :| Encloses(document, open, body, close);
    var inner := Render(body);
    ScanGroup(open, body, inner, close, after, maxSize);
    Regroup(open, inner, close, after);
  }

  lemma Regroup(open: char, inner: string, close: char, after: string)
    ensures [open] + inner + [close] + after == [open] + (inner + ([close] + after))
  {
  }

  lemma ScanOpen(open: char, tail: string, maxSize: int)
    requires IsOpen(open)
    ensures Scan(IDLE, [open] + tail, maxSize) == Scan(IDLE.Advance(open), tail, maxSize)
  {
    var text := [open] + tail;
    assert text[0] == open && text[1..] == tail;
  }

  lemma ScanGroup(open: char, body: Body, inner: string, close: char, after: string, maxSize: int)
    requires IsOpen(open) && IsClose(close) && WellFormed(body) && inner == Render(body) && |inner| + 2 <= maxSize
    ensures Scan(IDLE, [open] + (inner + ([close] + after)), maxSize)
         == Scan(IDLE, after, maxSize).After([[open] + inner + [close]])
  {
    hide Scan, Render, WellFormed;
    var s := IDLE.Advance(open);
    ScanOpen(open, inner + ([close] + after), maxSize);
    ReadBody(s, body);
    ScanIsRead(s, inner, [close] + after, maxSize);
    assert Grown(s, inner).buffer + [close] == [open] + inner + [close];
    ScanClose(Grown(s, inner), close, after, maxSize);
  }

  lemma {:induction false} ScanSpace(gap: string, after: string, maxSize: int)
    requires AllSpace(gap)
    ensures Scan(IDLE, gap + after, maxSize) == Scan(IDLE, after, maxSize)
    decreases |gap|
  {
    if gap == "" {
      assert gap + after == after;
    } else {
      assert (gap + after)[0] == gap[0] && (gap + after)[1..] == gap[1..] + after;
      assert gap[0] in gap;
      ScanSpace(gap[1..], after, maxSize);
    }
  }

  /** `gaps[0]`, `documents[0]`, `gaps[1]`, ... up to the last gap. */
  function Interleave(gaps: seq<string>, documents: seq<string>): string
    requires |gaps| == |documents| + 1
  {
    if documents == [] then gaps[0] else gaps[0] + documents[0] + Interleave(gaps[1..], documents[1..])
  }

  /** Round trip: documents separated by any white space come out exactly, in order, and the
      stream may end there. */
  lemma {:induction false} DocumentsComeOut(gaps: seq<string>, documents: seq<string>, maxSize: int)
    requires |gaps| == |documents| + 1 && forall gap <- gaps :: AllSpace(gap)
    requires forall d <- documents :: IsDocument(d) && |d| <= maxSize
    ensures Scan(IDLE, Interleave(gaps, documents), maxSize) == Scanned(IDLE, documents)
    decreases |documents|
  {
    hide AllSpace, IsDocument;
    if documents == [] {
      ScanSpace(gaps[0], "", maxSize);
      assert gaps[0] + "" == gaps[0];
    } else {
      var first, rest := documents[0], Interleave(gaps[1..], documents[1..]);
      assert gaps[0] in gaps && first in documents;
      assert gaps[0] + first + rest == gaps[0] + (first + rest);
      ScanSpace(gaps[0], first + rest, maxSize);
      ScanDocument(first, rest, maxSize);
      DocumentsComeOut(gaps[1..], documents[1..], maxSize);
      assert [first] + documents[1..] == documents;
    }
  }

  /** The buffer of a scanner is the beginning of a document that is still open. */
  ghost predicate Opened(s: Scanner) {
    s == IDLE || (s.buffer != "" && IsOpen(s.buffer[0]) && Inside(IDLE.Advance(s.buffer[0]), s.buffer[1..])
                  && s == Read(IDLE.Advance(s.buffer[0]), s.buffer[1..]))
  }

  lemma OpenedAdvances(s: Scanner, c: char)
    requires s.Sound() && Opened(s) && (s.depth > 0 || IsOpen(c))
    ensures s.Advance(c).depth > 0 ==> Opened(s.Advance(c))
    ensures s.Advance(c).depth == 0 ==> IsDocument(s.Advance(c).buffer)
  {
    var next := s.Advance(c);
    if s != IDLE {
      var first, inner := IDLE.Advance(s.buffer[0]), s.buffer[1..];
      assert next.buffer[0] == s.buffer[0] && next.buffer[1..] == inner + [c];
      ReadAppend(first, inner, [c]);
      ReadOne(s, c);
      if next.depth == 0 {
        var body := Parse(first, inner);
        assert Encloses(next.buffer, s.buffer[0], body, c);
      }
    } else {
      assert next.buffer == [c] && next.buffer[1..] == "";
    }
  }

  /** The parts of `whole`: white space, documents of the grammar, and a remainder. */
  ghost predicate Parts(whole: string, gaps: seq<string>, documents: seq<string>, remainder: string) {
    && |gaps| == |documents| + 1 && (forall gap <- gaps :: AllSpace(gap))
    && (forall d <- documents :: IsDocument(d))
    && whole == Interleave(gaps, documents) + remainder
  }

  lemma PartsAfterSpace(c: char, whole: string, gaps: seq<string>, documents: seq<string>, remainder: string)
    requires IsSpace(c) && Parts(whole, gaps, documents, remainder)
    ensures Parts([c] + whole, [[c] + gaps[0]] + gaps[1..], documents, remainder)
  {
    var more := [[c] + gaps[0]] + gaps[1..];
    assert more[1..] == gaps[1..];
    forall gap <- more ensures AllSpace(gap) {
      assert gaps[0] in gaps && (gap == more[0] || gap in gaps);
      forall x <- gap ensures IsSpace(x) {
        assert gap == more[0] ==> x == c || x in gaps[0];
      }
    }
    if documents != [] {
      var rest := Interleave(gaps[1..], documents[1..]);
      assert [c] + gaps[0] + documents[0] + rest == [c] + (gaps[0] + documents[0] + rest);
    }
    assert [c] + (Interleave(gaps, documents) + remainder) == Interleave(more, documents) + remainder;
  }

  lemma PartsAfterDocument(d: string, whole: string, gaps: seq<string>, documents: seq<string>, remainder: string)
    requires IsDocument(d) && Parts(whole, gaps, documents, remainder)
    ensures Parts(d + whole, [""] + gaps, [d] + documents, remainder)
  {
    assert ([""] + gaps)[1..] == gaps && ([d] + documents)[1..] == documents;
    assert d + (Interleave(gaps, documents) + remainder) == "" + d + Interleave(gaps, documents) + remainder;
  }

  /** Conservation: what was buffered and what was fed is the white space skipped, the documents
      emitted and what is buffered now; and every emitted document is one of the grammar. */
  lemma {:induction false} NothingIsLost(s: Scanner, text: string, maxSize: int) returns (gaps: seq<string>)
    requires s.Sound() && Opened(s) && Scan(s, text, maxSize).Scanned?
    ensures var r := Scan(s, text, maxSize);
            Parts(s.buffer + text, gaps, r.documents, r.state.buffer) && Opened(r.state)
    decreases |text|
  {
    if text == "" {
      gaps := [""];
      assert s.buffer + text == "" + s.buffer;
    } else {
      var c, tail := text[0], text[1..];
      var move := MoveOn(s, c);
      assert text == [c] + tail;
      BufferMoves(s, c, tail);
      if move.Skip? {
        var later := NothingIsLost(s, tail, maxSize);
        gaps := [[c] + later[0]] + later[1..];
        var r := Scan(s, tail, maxSize);
        PartsAfterSpace(c, s.buffer + tail, later, r.documents, r.state.buffer);
      } else if move.Stay? {
        gaps := NothingIsLost(move.next, tail, maxSize);
      } else {
        var later := NothingIsLost(IDLE, tail, maxSize);
        gaps := [""] + later;
        var r := Scan(IDLE, tail, maxSize);
        PartsAfterDocument(move.document, IDLE.buffer + tail, later, r.documents, r.state.buffer);
      }
    }
  }

  lemma BufferMoves(s: Scanner, c: char, tail: string)
    requires s.Sound() && Opened(s)
    ensures match MoveOn(s, c)
            case Skip => IsSpace(c) && s == IDLE && s.buffer + ([c] + tail) == [c] + (s.buffer + tail)
            case Stay(next) => Opened(next) && s.buffer + ([c] + tail) == next.buffer + tail
            case Close(document) => IsDocument(document) && s.buffer + ([c] + tail) == document + (IDLE.buffer + tail)
            case Refuse => true
  {
    if s.depth > 0 || IsOpen(c) {
      OpenedAdvances(s, c);
    }
  }

  /** The splitter emits a text as one document exactly if the text is a document of the grammar
      within the bound. */
  lemma DocumentsAreTheGrammar(text: string, maxSize: int)
    ensures Scan(IDLE, text, maxSize) == Scanned(IDLE, [text]) <==> IsDocument(text) && |text| <= maxSize
  {
    if IsDocument(text) && |text| <= maxSize {
      ScanDocument(text, "", maxSize);
      assert text + "" == text && [text] + [] == [text];
      assert Scan(IDLE, "", maxSize) == Scanned(IDLE, []);
    }
    if Scan(IDLE, text, maxSize) == Scanned(IDLE, [text]) {
      var gaps := NothingIsLost(IDLE, text, maxSize);
    }
  }
}
