/** The incremental cutter of back-to-back JSON documents.

    `Scan` is the specification: one character at a time, with the size bound checked
    after every character. `JsonDocumentSplitter` is the object the client uses: it works on
    whole chunks, slices them, and checks the bound only when a document closes or a
    chunk ends. */
module DocumentSplitter {

  datatype SplitError = InvalidData | TooLarge | EndedInside

  predicate IsOpen(c: char) { c == '{' || c == '[' }

  predicate IsClose(c: char) { c == '}' || c == ']' }

  /** The characters `str.isspace` accepts (Unicode white space and the separators 1C to 1F),
      a wider set than the four of section 2 of RFC 8259. */
  predicate IsSpace(c: char) {
    || '\t' <= c <= '\r'
    || '\U{1C}' <= c <= ' '
    || c == '\U{85}' || c == '\U{A0}' || c == '\U{1680}'
    || '\U{2000}' <= c <= '\U{200A}'
    || c == '\U{2028}' || c == '\U{2029}' || c == '\U{202F}' || c == '\U{205F}' || c == '\U{3000}'
  }

  predicate AllSpace(text: string) { forall c <- text :: IsSpace(c) }

  /** What the scanner remembers between two characters. */
  datatype Scanner = Scanner(depth: nat, inString: bool, escape: bool, buffer: string) {
    predicate Sound() {
      && (depth == 0 ==> buffer == "" && !inString)
      && (escape ==> inString)
    }

    predicate Fits(maxSize: int) { depth > 0 ==> |buffer| <= maxSize }

    /** The scanner after one more character of a document. */
    function Advance(c: char): Scanner {
      var s := this.(buffer := buffer + [c]);
      if inString then
        if escape then s.(escape := false)
        else if c == '\\' then s.(escape := true)
        else if c == '"' then s.(inString := false)
        else s
      else if c == '"' then s.(inString := true)
      else if IsOpen(c) then s.(depth := depth + 1)
      else if IsClose(c) && depth > 0 then s.(depth := depth - 1)
      else s
    }
  }

  const IDLE := Scanner(0, false, false, "")

  /** What one character does to a scanner. */
  datatype Move = Skip | Refuse | Stay(next: Scanner) | Close(document: string)

  function MoveOn(s: Scanner, c: char): (m: Move)
    requires s.Sound()
    ensures m.Stay? ==> m.next.Sound() && m.next.depth > 0
  {
    if s.depth == 0 && !IsOpen(c) then if IsSpace(c) then Skip else Refuse
    else
      var next := s.Advance(c);
      if next.depth > 0 then Stay(next) else Close(next.buffer)
  }

  datatype Outcome = Scanned(state: Scanner, documents: seq<string>) | Failed(error: SplitError) {
    function After(earlier: seq<string>): Outcome {
      if Scanned? then Scanned(state, earlier + documents) else this
    }
  }

  /** The meaning of feeding `text` to a scanner in state `s`. */
  function Scan(s: Scanner, text: string, maxSize: int): (r: Outcome)
    requires s.Sound()
    ensures r.Scanned? ==> r.state.Sound() && r.state.Fits(maxSize)
    ensures r.Scanned? ==> forall d <- r.documents :: |d| <= maxSize
    decreases |text|
  {
    if !s.Fits(maxSize) then Failed(TooLarge)
    else if text == "" then Scanned(s, [])
    else match MoveOn(s, text[0])
      case Skip => Scan(s, text[1..], maxSize)
      case Refuse => Failed(InvalidData)
      case Stay(next) => Scan(next, text[1..], maxSize)
      case Close(document) =>
        if |document| > maxSize then Failed(TooLarge)
        else Scan(IDLE, text[1..], maxSize).After([document])
  }

  /** What a refused chunk leaves behind: the open document it ends in, if every one it completed
      is within the bound, and nothing otherwise. */
  function AfterRefusal(s: Scanner, text: string, maxSize: int): Scanner
    requires s.Sound()
  {
    match Scan(s, text, |s.buffer| + |text|)
    case Scanned(state, documents) => if forall d <- documents :: |d| <= maxSize then state else IDLE
    case Failed(_) => IDLE
  }

  /** One character of `Scan`, for a scan that is at `index` of a chunk. */
  lemma ScanStep(s: Scanner, text: string, index: nat, maxSize: int, earlier: seq<string>)
    requires s.Sound() && index < |text|
    ensures var here, there := Scan(s, text[index..], maxSize), text[index + 1..];
            match MoveOn(s, text[index])
            case Skip => here == Scan(s, there, maxSize)
            case Refuse => here == Failed(InvalidData)
            case Stay(next) => here == Scan(next, there, maxSize)
            case Close(document) =>
              if |document| > maxSize then here == Failed(TooLarge)
              else here.After(earlier) == Scan(IDLE, there, maxSize).After(earlier + [document])
  {
    var rest := text[index..];
    assert rest[0] == text[index] && rest[1..] == text[index + 1..];
    var after := Scan(IDLE, rest[1..], maxSize);
    if MoveOn(s, text[index]).Close? && after.Scanned? {
      var document := MoveOn(s, text[index]).document;
      assert earlier + ([document] + after.documents) == earlier + [document] + after.documents;
    }
  }

  /** A scan of `text` that has come to `index`, with and without a bound that matters. */
  ghost predicate Reached(whole: Scanner, text: string, maxSize: int, index: nat, current: Scanner,
      documents: seq<string>)
    requires whole.Sound() && index <= |text|
  {
    var bound := |whole.buffer| + |text|;
    && current.Sound() && |current.buffer| + |text| - index <= bound && (forall d <- documents :: |d| <= maxSize)
    && Scan(whole, text, maxSize) == Scan(current, text[index..], maxSize).After(documents)
    && Scan(whole, text, bound) == Scan(current, text[index..], bound).After(documents)
  }

  lemma ReachedNext(whole: Scanner, text: string, maxSize: int, index: nat, current: Scanner, documents: seq<string>)
    requires whole.Sound() && index < |text| && Reached(whole, text, maxSize, index, current, documents)
    ensures match MoveOn(current, text[index])
            case Skip => Reached(whole, text, maxSize, index + 1, current, documents)
            case Refuse => Scan(whole, text, maxSize) == Failed(InvalidData)
              && AfterRefusal(whole, text, maxSize) == IDLE
            case Stay(next) => Reached(whole, text, maxSize, index + 1, next, documents)
            case Close(document) =>
              if |document| > maxSize
              then Scan(whole, text, maxSize) == Failed(TooLarge) && AfterRefusal(whole, text, maxSize) == IDLE
              else Reached(whole, text, maxSize, index + 1, IDLE, documents + [document])
  {
    hide Scan;
    var bound := |whole.buffer| + |text|;
    ScanStep(current, text, index, maxSize, documents);
    ScanStep(current, text, index, bound, documents);
    match MoveOn(current, text[index])
    case Close(document) =>
      if |document| > maxSize && |document| <= bound {
        HoldsTooLong(Scan(IDLE, text[index + 1..], bound), documents, document, maxSize);
      }
    case _ =>
  }

  lemma HoldsTooLong(rest: Outcome, documents: seq<string>, document: string, maxSize: int)
    requires |document| > maxSize
    ensures
      var all := rest.After(documents + [document]);
      all.Scanned? ==> exists d <- all.documents :: |d| > maxSize
  {
    assert rest.Scanned? ==> (documents + [document] + rest.documents)[|documents|] == document;
  }

  lemma StartReached(whole: Scanner, text: string, maxSize: int)
    requires whole.Sound()
    ensures Reached(whole, text, maxSize, 0, whole, [])
  {
    assert text[0..] == text;
    assert forall documents: seq<string> :: [] + documents == documents;
  }

  lemma ReachedEnd(whole: Scanner, text: string, maxSize: int, current: Scanner, documents: seq<string>)
    requires whole.Sound() && Reached(whole, text, maxSize, |text|, current, documents)
    ensures current.Fits(maxSize) ==> Scan(whole, text, maxSize) == Scanned(current, documents)
    ensures !current.Fits(maxSize) ==>
            Scan(whole, text, maxSize) == Failed(TooLarge) && AfterRefusal(whole, text, maxSize) == current
  {
    assert text[|text|..] == "" && documents + [] == documents;
  }

  function Join(parts: seq<string>): string {
    if parts == [] then "" else Join(parts[..|parts| - 1]) + parts[|parts| - 1]
  }

  /** What the loop body reports of one character. */
  datatype Taken = More | Refused | Completed(document: string)

  datatype FeedResult = Documents(documents: seq<string>) | Raised(error: SplitError)

  class JsonDocumentSplitter {
    const maxSize: int
    var parts: seq<string>
    var size: int
    var depth: nat
    var inString: bool
    var escape: bool

    /** `size` is the length of what is buffered, and between two documents nothing is open. */
    ghost predicate Valid()
      reads this
    {
      size == |Join(parts)| && (depth == 0 ==> parts == []) && State().Sound()
    }

    ghost function State(): Scanner
      reads this
    {
      Scanner(depth, inString, escape, Join(parts))
    }

    /** In the middle of a chunk, `s` is the state with the open part of the chunk. */
    ghost predicate Tracks(s: Scanner, text: string, start: int, index: nat)
      requires index <= |text|
      reads this
    {
      && s.Sound() && s.depth == depth && s.inString == inString && s.escape == escape
      && size == |Join(parts)| && (depth == 0 ==> parts == [])
      && -1 <= start <= index && (start == -1 <==> depth == 0)
      && (start >= 0 ==> s.buffer == Join(parts) + text[start..index])
    }

    constructor (maxSize: int)
      ensures Valid() && State() == IDLE && this.maxSize == maxSize
    {
      this.maxSize := maxSize;
      parts, size, depth, inString, escape := [], 0, 0, false, false;
    }

    /** The body of the character loop: nesting, strings, escapes, and a document that closes. */
    method Take(text: string, start: int, index: nat, ghost s: Scanner) returns (open: int, taken: Taken)
      requires index < |text| && Tracks(s, text, start, index)
      modifies `parts, `size, `depth, `inString, `escape
      ensures match MoveOn(s, text[index])
              case Skip => taken == More && Tracks(s, text, open, index + 1)
              case Refuse => taken == Refused && Tracks(s, text, open, index + 1)
              case Stay(next) => taken == More && Tracks(next, text, open, index + 1)
              case Close(document) => taken == Completed(document) && Tracks(IDLE, text, open, index + 1)
    {
      var c := text[index];
      ghost var next := s.Advance(c);
      open := start;
      if depth == 0 {
        if IsOpen(c) {
          open, depth := index, 1;
          return open, More;
        }
        return open, if IsSpace(c) then More else Refused;
      }
      assert text[start..index] + [c] == text[start..index + 1];
      assert next.buffer == Join(parts) + text[start..index + 1];
      if inString {
        if escape {
          escape := false;
        } else if c == '\\' {
          escape := true;
        } else if c == '"' {
          inString := false;
        }
      } else if c == '"' {
        inString := true;
      } else if IsOpen(c) {
        depth := depth + 1;
      } else if IsClose(c) {
        depth := depth - 1;
        if depth == 0 {
          parts := parts + [text[start..index + 1]];
          var document := Join(parts);
          parts, size := [], 0;
          return -1, Completed(document);
        }
      }
      taken := More;
    }

    /** Feeding a chunk means scanning it. A refused chunk returns none of the documents it
        completed. */
    method Feed(text: string) returns (r: FeedResult)
      requires Valid()
      modifies this
      ensures Valid()
      ensures match Scan(old(State()), text, maxSize)
              case Scanned(state, documents) => r == Documents(documents) && State() == state
              case Failed(error) => r == Raised(error) && State() == AfterRefusal(old(State()), text, maxSize)
    {
      var documents: seq<string> := [];
      // The index where the open document begins in this chunk; -1 while none is open.
      var start := if depth > 0 then 0 else -1;
      hide Scan, AfterRefusal, Reached;
      ghost var whole, current := State(), State();
      StartReached(whole, text, maxSize);
      for index := 0 to |text|
        invariant Tracks(current, text, start, index) && Reached(whole, text, maxSize, index, current, documents)
      {
        ReachedNext(whole, text, maxSize, index, current, documents);
        ghost var expected := MoveOn(current, text[index]);
        var taken;
        start, taken := Take(text, start, index, current);
        current := match expected case Stay(next) => next case Close(_) => IDLE case _ => current;
        match taken
        case More =>
        case Refused => return Raised(InvalidData);
        case Completed(document) =>
          if |document| > maxSize {
            return Raised(TooLarge);
          }
          documents := documents + [document];
      }
      ReachedEnd(whole, text, maxSize, current, documents);
      if start >= 0 {
        var tail := text[start..];
        parts := parts + [tail];
        size := size + |tail|;
        assert tail == text[start..|text|] && State() == current;
        if size > maxSize {
          return Raised(TooLarge);
        }
      }
      return Documents(documents);
    }

    /** The stream may end only between two documents; `tail` is what the decoder still held. */
    method Finish(tail: string) returns (error: bool)
      requires Valid()
      ensures error <==> depth > 0 || !AllSpace(tail)
    {
      error := depth > 0 || exists c <- tail :: !IsSpace(c);
    }
  }
}
