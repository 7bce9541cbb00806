/** The sequential parts of the configured-harness runner: splitting its command line, bounding its
    output, and finding the protocol document in it (runner/cli.go). */
module Cli {
  import opened Wrappers

  // ---- Command words -------------------------------------------------------------------------

  datatype SplitError = TrailingBackslash | UnbalancedQuote | EmptyWord

  datatype Split<+T> = Words(words: T) | Malformed(error: SplitError)

  predicate Separator(c: char) {
    c == ' ' || c == '\t' || c == '\n'
  }

  predicate Quote(c: char) {
    c == '\'' || c == '"'
  }

  /** The text up to the closing quote, and what follows it. */
  function Quoted(s: string, quote: char): Option<(string, string)> {
    if s == [] then None
    else if s[0] == quote then Some(([], s[1..]))
    else
      match Quoted(s[1..], quote)
      case None => None
      case Some((text, rest)) => Some(([s[0]] + text, rest))
  }

  lemma {:induction false} QuotedShrinks(s: string, quote: char)
    ensures Quoted(s, quote).Some? ==> |Quoted(s, quote).value.1| < |s|
  {
    if s != [] && s[0] != quote {
      QuotedShrinks(s[1..], quote);
    }
  }

  /** A word is a run of plain characters, escaped characters and quoted texts. */
  function Word(s: string): Split<(string, string)>
    decreases |s|
  {
    if s == [] || Separator(s[0]) then Words(([], s))
    else if s[0] == '\\' then
      if |s| == 1 then Malformed(TrailingBackslash) else Prefixed([s[1]], Word(s[2..]))
    else if Quote(s[0]) then
      QuotedShrinks(s[1..], s[0]);
      match Quoted(s[1..], s[0])
      case None => Malformed(UnbalancedQuote)
      case Some((text, rest)) => Prefixed(text, Word(rest))
    else Prefixed([s[0]], Word(s[1..]))
  }

  function Prefixed(text: string, word: Split<(string, string)>): Split<(string, string)> {
    match word
    case Malformed(e) => Malformed(e)
    case Words((more, rest)) => Words((text + more, rest))
  }

  lemma {:induction false} WordShrinks(s: string)
    ensures Word(s).Words? ==> |Word(s).words.1| <= |s|
    ensures Word(s).Words? && s != [] && !Separator(s[0]) ==> |Word(s).words.1| < |s|
    decreases |s|
  {
    if s == [] || Separator(s[0]) {
    } else if s[0] == '\\' {
      if |s| > 1 {
        WordShrinks(s[2..]);
      }
    } else if Quote(s[0]) {
      QuotedShrinks(s[1..], s[0]);
      if Quoted(s[1..], s[0]).Some? {
        WordShrinks(Quoted(s[1..], s[0]).value.1);
      }
    } else {
      WordShrinks(s[1..]);
    }
  }

  /** The grammar of a command line: words between separators. */
  function Line(s: string): Split<seq<string>>
    decreases |s|
  {
    if s == [] then Words([])
    else if Separator(s[0]) then Line(s[1..])
    else
      WordShrinks(s);
      match Word(s)
      case Malformed(e) => Malformed(e)
      case Words((word, rest)) => Then([word], Line(rest))
  }

  function Then(words: seq<string>, line: Split<seq<string>>): Split<seq<string>> {
    match line
    case Malformed(e) => Malformed(e)
    case Words(more) => Words(words + more)
  }

  function Command(s: string): Split<seq<string>> {
    match Line(s)
    case Malformed(e) => Malformed(e)
    case Words(words) => if [] in words then Malformed(EmptyWord) else Words(words)
  }

  /** What the scan has left to do: the words so far, the one it is in, and the quote it is inside. */
  function Continue(words: seq<string>, cur: string, inWord: bool, quote: Option<char>, rest: string)
    : Split<seq<string>> {
    if quote.Some? then
      match Quoted(rest, quote.value)
      case None => Malformed(UnbalancedQuote)
      case Some((text, after)) => InWord(words, cur + text, after)
    else if inWord then InWord(words, cur, rest)
    else Then(words, Line(rest))
  }

  function InWord(words: seq<string>, cur: string, rest: string): Split<seq<string>> {
    match Word(rest)
    case Malformed(e) => Malformed(e)
    case Words((text, after)) => Then(words + [cur + text], Line(after))
  }

  /** The scan of splitWords computes the grammar, errors included. */
  method SplitWords(s: string) returns (r: Split<seq<string>>)
    ensures r == Command(s)
  {
    hide Continue, Line, Separator, Quote;
    var words: seq<string> := [];
    var cur: string := [];
    var inWord := false;
    var quote: Option<char> := None;
    var i := 0;
    ScanStarts(s);
    assert s[0..] == s;
    while i < |s|
      invariant 0 <= i <= |s|
      invariant Line(s) == Continue(words, cur, inWord, quote, s[i..])
      invariant !inWord ==> cur == [] && quote.None?
    {
      var c := s[i];
      assert s[i..][0] == c && s[i..][1..] == s[i + 1..];
      if quote.Some? {
        QuotedMoves(words, cur, quote.value, s[i..]);
        if c == quote.value {
          quote := None;
        } else {
          cur := cur + [c];
        }
      } else if c == '\\' {
        EscapeMoves(words, cur, inWord, s[i..]);
        if i + 1 >= |s| {
          return Malformed(TrailingBackslash);
        }
        assert s[i..][1] == s[i + 1] && s[i..][2..] == s[i + 2..];
        i := i + 1;
        cur := cur + [s[i]];
        inWord := true;
      } else if Quote(c) {
        QuoteMoves(words, cur, inWord, s[i..]);
        quote := Some(c);
        inWord := true;
      } else if Separator(c) {
        SeparatorMoves(words, cur, inWord, s[i..]);
        if inWord {
          words := words + [cur];
          cur := [];
          inWord := false;
        }
      } else {
        PlainMoves(words, cur, inWord, s[i..]);
        cur := cur + [c];
        inWord := true;
      }
      i := i + 1;
    }
    assert s[i..] == [];
    ScanEnds(words, cur, inWord, quote);
    if quote.Some? {
      return Malformed(UnbalancedQuote);
    }
    if inWord {
      words := words + [cur];
    }
    for k := 0 to |words|
      invariant forall j | 0 <= j < k :: words[j] != []
    {
      if words[k] == [] {
        return Malformed(EmptyWord);
      }
    }
    return Words(words);
  }

  lemma ThenNothing(line: Split<seq<string>>)
    ensures Then([], line) == line
  {
    match line
    case Malformed(_) =>
    case Words(more) => assert [] + more == more;
  }

  lemma QuotedMoves(words: seq<string>, cur: string, quote: char, rest: string)
    requires rest != []
    ensures Continue(words, cur, true, Some(quote), rest)
      == if rest[0] == quote then Continue(words, cur, true, None, rest[1..])
         else Continue(words, cur + [rest[0]], true, Some(quote), rest[1..])
  {
    if rest[0] == quote {
      assert cur + [] == cur;
    } else if Quoted(rest[1..], quote).Some? {
      var text := Quoted(rest[1..], quote).value.0;
      assert cur + ([rest[0]] + text) == cur + [rest[0]] + text;
    }
  }

  lemma WordEnds(words: seq<string>, cur: string, rest: string)
    requires rest == [] || Separator(rest[0])
    ensures InWord(words, cur, rest) == Then(words + [cur], Line(rest))
  {
    assert cur + [] == cur;
  }

  /** A character that is no separator starts a word, or continues the one the scan is in. */
  lemma WordStarts(words: seq<string>, cur: string, inWord: bool, rest: string)
    requires rest != [] && !Separator(rest[0]) && (!inWord ==> cur == [])
    ensures Continue(words, cur, inWord, None, rest) == InWord(words, cur, rest)
  {
    match Word(rest)
    case Malformed(_) =>
    case Words((text, after)) =>
      assert cur + text == (if inWord then cur + text else text);
      match Line(after)
      case Malformed(_) =>
      case Words(more) => assert words + ([text] + more) == words + [text] + more;
  }

  lemma PrefixMoves(words: seq<string>, cur: string, text: string, rest: string)
    ensures InWord(words, cur + text, rest)
      == match Prefixed(text, Word(rest))
         case Malformed(e) => Malformed(e)
         case Words((more, after)) => Then(words + [cur + more], Line(after))
  {
    match Word(rest)
    case Malformed(_) =>
    case Words((more, after)) => assert cur + (text + more) == cur + text + more;
  }

  // What each character does to the scan.

  lemma ScanStarts(s: string)
    ensures Continue([], [], false, None, s) == Line(s)
  {
    ThenNothing(Line(s));
  }

  lemma ScanEnds(words: seq<string>, cur: string, inWord: bool, quote: Option<char>)
    ensures Continue(words, cur, inWord, quote, [])
      == if quote.Some? then Malformed(UnbalancedQuote) else Words(if inWord then words + [cur] else words)
  {
    assert cur + [] == cur && words + [] == words && words + [cur] + [] == words + [cur];
  }

  lemma EscapeMoves(words: seq<string>, cur: string, inWord: bool, rest: string)
    requires rest != [] && rest[0] == '\\' && (!inWord ==> cur == [])
    ensures Continue(words, cur, inWord, None, rest)
      == if |rest| == 1 then Malformed(TrailingBackslash) else Continue(words, cur + [rest[1]], true, None, rest[2..])
  {
    WordStarts(words, cur, inWord, rest);
    if |rest| > 1 {
      PrefixMoves(words, cur, [rest[1]], rest[2..]);
    }
  }

  lemma PlainMoves(words: seq<string>, cur: string, inWord: bool, rest: string)
    requires rest != [] && rest[0] != '\\' && !Quote(rest[0]) && !Separator(rest[0]) && (!inWord ==> cur == [])
    ensures Continue(words, cur, inWord, None, rest) == Continue(words, cur + [rest[0]], true, None, rest[1..])
  {
    WordStarts(words, cur, inWord, rest);
    PrefixMoves(words, cur, [rest[0]], rest[1..]);
  }

  lemma SeparatorMoves(words: seq<string>, cur: string, inWord: bool, rest: string)
    requires rest != [] && Separator(rest[0])
    ensures Continue(words, cur, inWord, None, rest)
      == Continue(if inWord then words + [cur] else words, [], false, None, rest[1..])
  {
    if inWord {
      WordEnds(words, cur, rest);
    }
  }

  lemma QuoteMoves(words: seq<string>, cur: string, inWord: bool, rest: string)
    requires rest != [] && Quote(rest[0]) && (!inWord ==> cur == [])
    ensures Continue(words, cur, inWord, None, rest) == Continue(words, cur, true, Some(rest[0]), rest[1..])
  {
    WordStarts(words, cur, inWord, rest);
    match Quoted(rest[1..], rest[0])
    case None =>
    case Some((text, after)) => PrefixMoves(words, cur, text, after);
  }

  function Escaped(word: string): string {
    if word == [] then [] else ['\\', word[0]] + Escaped(word[1..])
  }

  function Joined(words: seq<string>): string {
    if words == [] then []
    else if |words| == 1 then Escaped(words[0])
    else Escaped(words[0]) + [' '] + Joined(words[1..])
  }

  lemma {:induction false} EscapedWord(word: string, rest: string)
    requires rest == [] || Separator(rest[0])
    ensures Word(Escaped(word) + rest) == Words((word, rest))
  {
    var s := Escaped(word) + rest;
    if word == [] {
      assert s == rest;
    } else {
      EscapedWord(word[1..], rest);
      assert s[0] == '\\' && s[1] == word[0] && s[2..] == Escaped(word[1..]) + rest;
      assert [word[0]] + word[1..] == word;
    }
  }

  lemma {:induction false} JoinedLine(words: seq<string>)
    requires forall i | 0 <= i < |words| :: words[i] != []
    ensures Line(Joined(words)) == Words(words)
  {
    if words != [] {
      var rest := if |words| == 1 then [] else [' '] + Joined(words[1..]);
      var s := Joined(words);
      assert s == Escaped(words[0]) + rest;
      EscapedWord(words[0], rest);
      assert s[0] == '\\';
      assert words == [words[0]] + words[1..];
      if |words| > 1 {
        JoinedLine(words[1..]);
        assert rest[1..] == Joined(words[1..]);
      }
    }
  }

  /** Any list of nonempty words survives: escape each character, join with spaces, split again. */
  lemma EscapingRoundTrips(words: seq<string>)
    requires forall i | 0 <= i < |words| :: words[i] != []
    ensures Command(Joined(words)) == Words(words)
  {
    JoinedLine(words);
  }

  // ---- Every way to spell a line -------------------------------------------------------------

  /** A character as it stands, one after a backslash, or a text in quotes of either kind. */
  datatype Piece = Plain(c: char) | Escape(c: char) | Enclosed(quote: char, text: string)

  predicate WellSpelled(p: Piece) {
    match p
    case Plain(c) => c !in {' ', '\t', '\n', '\\', '\'', '"'}
    case Escape(_) => true
    case Enclosed(quote, text) => quote in {'\'', '"'} && quote !in text
  }

  function Spelling(p: Piece): string {
    match p
    case Plain(c) => [c]
    case Escape(c) => ['\\', c]
    case Enclosed(quote, text) => [quote] + text + [quote]
  }

  function Meaning(p: Piece): string {
    match p
    case Plain(c) => [c]
    case Escape(c) => [c]
    case Enclosed(_, text) => text
  }

  function SpellWord(pieces: seq<Piece>): string {
    if pieces == [] then [] else Spelling(pieces[0]) + SpellWord(pieces[1..])
  }

  function WordMeaning(pieces: seq<Piece>): string {
    if pieces == [] then [] else Meaning(pieces[0]) + WordMeaning(pieces[1..])
  }

  /** A word with the blanks before it. */
  datatype Item = Item(gap: string, pieces: seq<Piece>)

  predicate Blank(gap: string) {
    forall i | 0 <= i < |gap| :: gap[i] in {' ', '\t', '\n'}
  }

  predicate WellFormed(items: seq<Item>) {
    && (forall i | 0 <= i < |items| ::
          && Blank(items[i].gap) && items[i].pieces != []
          && forall j | 0 <= j < |items[i].pieces| :: WellSpelled(items[i].pieces[j]))
    && forall i | 0 < i < |items| :: items[i].gap != []
  }

  function SpellLine(items: seq<Item>, end: string): string {
    if items == [] then end else items[0].gap + SpellWord(items[0].pieces) + SpellLine(items[1..], end)
  }

  function Meanings(items: seq<Item>): seq<string> {
    if items == [] then [] else [WordMeaning(items[0].pieces)] + Meanings(items[1..])
  }

  lemma {:induction false} EnclosedIs(text: string, quote: char, rest: string)
    requires quote !in text
    ensures Quoted(text + [quote] + rest, quote) == Some((text, rest))
  {
    var s := text + [quote] + rest;
    if text == [] {
      assert s[0] == quote && s[1..] == rest;
    } else {
      assert s[0] == text[0] && s[1..] == text[1..] + [quote] + rest;
      EnclosedIs(text[1..], quote, rest);
      assert [text[0]] + text[1..] == text;
    }
  }

  lemma PieceSpelled(p: Piece, after: string)
    requires WellSpelled(p)
    ensures Word(Spelling(p) + after) == Prefixed(Meaning(p), Word(after))
  {
    var s := Spelling(p) + after;
    match p
    case Plain(c) => assert s[0] == c && s[1..] == after;
    case Escape(c) => assert s[0] == '\\' && s[1] == c && s[2..] == after;
    case Enclosed(quote, text) =>
      assert s[0] == quote && s[1..] == text + [quote] + after;
      EnclosedIs(text, quote, after);
  }

  lemma {:induction false} WordSpelled(pieces: seq<Piece>, rest: string)
    requires forall j | 0 <= j < |pieces| :: WellSpelled(pieces[j])
    requires rest == [] || rest[0] in {' ', '\t', '\n'}
    ensures Word(SpellWord(pieces) + rest) == Words((WordMeaning(pieces), rest))
  {
    hide WellSpelled, Spelling, Meaning;
    if pieces == [] {
      assert SpellWord(pieces) + rest == rest;
    } else {
      var after := SpellWord(pieces[1..]) + rest;
      WordSpelled(pieces[1..], rest);
      PieceSpelled(pieces[0], after);
      assert SpellWord(pieces) + rest == Spelling(pieces[0]) + after;
    }
  }

  lemma {:induction false} GapSkipped(gap: string, rest: string)
    requires Blank(gap)
    ensures Line(gap + rest) == Line(rest)
  {
    if gap == [] {
      assert gap + rest == rest;
    } else {
      assert (gap + rest)[0] == gap[0] && (gap + rest)[1..] == gap[1..] + rest;
      GapSkipped(gap[1..], rest);
    }
  }

  lemma {:induction false} LineSpelled(items: seq<Item>, end: string)
    requires WellFormed(items) && Blank(end)
    ensures Line(SpellLine(items, end)) == Words(Meanings(items))
  {
    if items == [] {
      GapSkipped(end, []);
      assert end + [] == end;
    } else {
      var rest := SpellLine(items[1..], end);
      var word := SpellWord(items[0].pieces) + rest;
      assert WellFormed(items[1..]) by {
        assert forall i | 0 <= i < |items[1..]| :: items[1..][i] == items[i + 1];
      }
      assert SpellLine(items, end) == items[0].gap + word;
      GapSkipped(items[0].gap, word);
      assert rest == [] || rest[0] in {' ', '\t', '\n'} by { StartsBlank(items, end); }
      WordSpelled(items[0].pieces, rest);
      assert WellSpelled(items[0].pieces[0]);
      assert word[0] == Spelling(items[0].pieces[0])[0];
      LineSpelled(items[1..], end);
    }
  }

  lemma StartsBlank(items: seq<Item>, end: string)
    requires items != [] && WellFormed(items) && Blank(end)
    ensures var rest := SpellLine(items[1..], end); rest == [] || rest[0] in {' ', '\t', '\n'}
  {
    if |items| > 1 {
      assert items[1..][0] == items[1];
      assert SpellLine(items[1..], end)[0] == items[1].gap[0];
    }
  }

  /** However its words are spelled and spaced, a line splits into their meanings; it is refused only if one of them
      is empty. */
  lemma SpelledLineSplits(items: seq<Item>, end: string)
    requires WellFormed(items) && Blank(end)
    ensures Command(SpellLine(items, end))
      == if exists i | 0 <= i < |items| :: WordMeaning(items[i].pieces) == [] then Malformed(EmptyWord)
         else Words(Meanings(items))
  {
    LineSpelled(items, end);
    MeaningsAre(items);
  }

  lemma {:induction false} MeaningsAre(items: seq<Item>)
    ensures |Meanings(items)| == |items|
    ensures forall i | 0 <= i < |items| :: Meanings(items)[i] == WordMeaning(items[i].pieces)
  {
    if items != [] {
      MeaningsAre(items[1..]);
    }
  }

  // ---- Bounded output ------------------------------------------------------------------------

  newtype byte = x: int | 0 <= x < 256

  function Stream(writes: seq<seq<byte>>): seq<byte> {
    if writes == [] then [] else Stream(writes[..|writes| - 1]) + writes[|writes| - 1]
  }

  function Held(stream: seq<byte>, limit: int): seq<byte> {
    if limit <= 0 then [] else if |stream| <= limit then stream else stream[..limit]
  }

  /** More bytes than the limit were written; or an empty write came when the buffer was full. */
  ghost predicate Overflow(writes: seq<seq<byte>>, limit: int) {
    || |Stream(writes)| > (if limit < 0 then 0 else limit)
    || exists k | 0 <= k < |writes| :: writes[k] == [] && |Stream(writes[..k])| >= limit
  }

  class CapWriter {
    const limit: int
    var buffer: seq<byte>
    var overflowed: bool
    var callbacks: nat
    ghost var writes: seq<seq<byte>>

    ghost predicate Valid()
      reads this
    {
      && buffer == Held(Stream(writes), limit)
      && (overflowed <==> Overflow(writes, limit))
      && callbacks == (if overflowed then 1 else 0)
    }

    constructor (limit: int)
      ensures Valid() && this.limit == limit && writes == []
    {
      this.limit, buffer, overflowed, callbacks, writes := limit, [], false, 0, [];
    }

    /** Every write is reported as complete; onOverflow is called at the first that does not fit. */
    method Write(p: seq<byte>) returns (n: int)
      requires Valid()
      modifies this
      ensures Valid() && writes == old(writes) + [p] && n == |p|
    {
      hide Stream, Overflow, Held;
      writes := writes + [p];
      n := |p|;
      WriteAdds(old(writes), p, limit);
      HeldAdds(Stream(old(writes)), p, limit);
      if overflowed {
        OverflowedIsFull(old(writes), limit);
        return;
      }
      var remaining := limit - |buffer|;
      if remaining <= 0 {
        overflowed := true;
        callbacks := callbacks + 1;
      } else if |p| > remaining {
        buffer := buffer + p[..remaining];
        overflowed := true;
        callbacks := callbacks + 1;
      } else {
        buffer := buffer + p;
      }
    }
  }

  lemma HeldAdds(stream: seq<byte>, p: seq<byte>, limit: int)
    ensures |Held(stream, limit)| == (if limit <= 0 then 0 else if |stream| <= limit then |stream| else limit)
    ensures |stream| >= limit ==> Held(stream + p, limit) == Held(stream, limit)
    ensures |stream| < limit ==>
      Held(stream + p, limit) == Held(stream, limit) + if |stream + p| <= limit then p else p[..limit - |stream|]
  {
  }

  lemma {:induction false} PrefixIsShorter(writes: seq<seq<byte>>, k: nat)
    requires k <= |writes|
    ensures |Stream(writes[..k])| <= |Stream(writes)|
  {
    if k < |writes| {
      var fewer := writes[..|writes| - 1];
      PrefixIsShorter(fewer, k);
      assert fewer[..k] == writes[..k];
    } else {
      assert writes[..k] == writes;
    }
  }

  lemma OverflowedIsFull(writes: seq<seq<byte>>, limit: int)
    requires Overflow(writes, limit)
    ensures |Stream(writes)| >= limit
  {
    if |Stream(writes)| < limit {
      var k :| 0 <= k < |writes| && writes[k] == [] && |Stream(writes[..k])| >= limit;
      PrefixIsShorter(writes, k);
    }
  }

  lemma WriteAdds(writes: seq<seq<byte>>, p: seq<byte>, limit: int)
    ensures Stream(writes + [p]) == Stream(writes) + p
    ensures Overflow(writes + [p], limit) <==>
      Overflow(writes, limit)
      || |Stream(writes) + p| > (if limit < 0 then 0 else limit)
      || (p == [] && |Stream(writes)| >= limit)
  {
    var more := writes + [p];
    assert more[..|writes|] == writes;
    assert forall k | 0 <= k < |writes| :: more[k] == writes[k] && more[..k] == writes[..k];
    if Overflow(more, limit) && |Stream(more)| <= (if limit < 0 then 0 else limit) {
      var k :| 0 <= k < |more| && more[k] == [] && |Stream(more[..k])| >= limit;
      assert k < |writes| ==> writes[k] == [] && |Stream(writes[..k])| >= limit;
    }
    if p == [] && |Stream(writes)| >= limit {
      assert more[|writes|] == [] && |Stream(more[..|writes|])| >= limit;
    }
    if k :| 0 <= k < |writes| && writes[k] == [] && |Stream(writes[..k])| >= limit {
      assert more[k] == [] && |Stream(more[..k])| >= limit;
    }
  }

  /** For writes that are not empty, the writer has overflowed exactly when more than the limit came. */
  lemma NonemptyOverflowIff(writes: seq<seq<byte>>, limit: int)
    requires limit >= 0 && forall k | 0 <= k < |writes| :: writes[k] != []
    ensures Overflow(writes, limit) <==> |Stream(writes)| > limit
  {
  }

  /** An empty write into an exactly full buffer is reported as an overflow, though nothing was lost. */
  lemma EmptyWriteOverflows(p: seq<byte>)
    ensures Overflow([p, []], |p|) && Held(Stream([p, []]), |p|) == p
  {
    assert [p, []][..1] == [p] && [p][..0] == [];
    assert Stream([p]) == p;
    assert Stream([p, []]) == p;
    assert [p, []][1] == [] && |Stream([p, []][..1])| >= |p|;
  }

  // ---- The protocol document -----------------------------------------------------------------

  const MAX_UNWRAP_DEPTH := 3

  datatype Status = Succeeded | Waiting | Failed

  datatype Reply = Reply(status: Status, content: string)

  const REPORTED_ERROR := Reply(Failed, "harness_reported_error")

  /** A piece of output after JSON decoding: no reply at all, one with a protocol status, or some other
      document, which may report an error of its own and may carry a `result`. */
  datatype Doc =
    | Undecodable
    | Protocol(reply: Reply)
    | Envelope(error: bool, result: Option<Field>)

  /** The `result` field as a document, and the text it holds when it is a string that starts with '{'. */
  datatype Field = Field(direct: Doc, text: Option<Text>)

  /** The text as one document, and those of its lines that start with '{'. */
  datatype Text = Text(whole: Doc, lines: seq<Doc>)

  function TryDecode(doc: Doc, depth: nat): Option<Reply>
    requires depth <= MAX_UNWRAP_DEPTH
    decreases MAX_UNWRAP_DEPTH - depth, 0
  {
    match doc
    case Undecodable => None
    case Protocol(reply) => Some(reply)
    case Envelope(error, result) =>
      if depth >= MAX_UNWRAP_DEPTH then None
      else if error then Some(REPORTED_ERROR)
      else if result.None? then None
      else
        var inner := TryDecode(result.value.direct, depth + 1);
        if inner.Some? || result.value.text.None? then inner
        else
          var whole := TryDecode(result.value.text.value.whole, depth + 1);
          if whole.Some? then whole else FirstReply(result.value.text.value.lines, depth + 1)
  }

  function FirstReply(lines: seq<Doc>, depth: nat): Option<Reply>
    requires depth <= MAX_UNWRAP_DEPTH
    decreases MAX_UNWRAP_DEPTH - depth, 1 + |lines|
  {
    if lines == [] then None
    else if TryDecode(lines[0], depth).Some? then TryDecode(lines[0], depth)
    else FirstReply(lines[1..], depth)
  }

  predicate Replies(line: Doc) {
    TryDecode(line, 0).Some?
  }

  predicate Fails(line: Doc) {
    Replies(line) && TryDecode(line, 0).value.status.Failed?
  }

  /** extractProtocol on output that is not blank. Of an event stream, a failure anywhere wins over every
      success; otherwise the last reply counts. */
  method ExtractProtocol(output: Text) returns (r: Option<Reply>)
    ensures Replies(output.whole) ==> r == TryDecode(output.whole, 0)
    ensures !Replies(output.whole) ==>
      && (r.None? <==> forall i | 0 <= i < |output.lines| :: !Replies(output.lines[i]))
      && (r.Some? ==>
            && (r.value.status.Failed? <==> exists i | 0 <= i < |output.lines| :: Fails(output.lines[i]))
            && exists i | 0 <= i < |output.lines| ::
                 && TryDecode(output.lines[i], 0) == r
                 && forall j | i < j < |output.lines| ::
                      if r.value.status.Failed? then !Fails(output.lines[j]) else !Replies(output.lines[j]))
  {
    r := TryDecode(output.whole, 0);
    if r.Some? {
      return;
    }
    var failed := false;
    ghost var at := 0;
    for k := 0 to |output.lines|
      invariant r.None? <==> forall i | 0 <= i < k :: !Replies(output.lines[i])
      invariant failed <==> exists i | 0 <= i < k :: Fails(output.lines[i])
      invariant r.Some? ==>
        && 0 <= at < k && TryDecode(output.lines[at], 0) == r && (failed <==> r.value.status.Failed?)
        && forall j | at < j < k :: if failed then !Fails(output.lines[j]) else !Replies(output.lines[j])
    {
      var reply := TryDecode(output.lines[k], 0);
      if reply.None? {
        continue;
      }
      if reply.value.status.Failed? {
        r, failed, at := reply, true, k;
      } else if !failed {
        r, at := reply, k;
      }
    }
  }

  /** Inside an envelope's text the first reply counts, so there a success followed by a failure still
      yields the success. */
  lemma FailureInsideEnvelopeIsLost(success: string, failure: string)
    ensures var lines := [Protocol(Reply(Succeeded, success)), Protocol(Reply(Failed, failure))];
      var doc := Envelope(false, Some(Field(Undecodable, Some(Text(Undecodable, lines)))));
      Fails(lines[1]) && TryDecode(doc, 0) == Some(Reply(Succeeded, success))
  {
  }

  /** Line i is a failure, and no reply comes before it. */
  ghost predicate FirstFailure(lines: seq<Doc>, depth: nat, i: int)
    requires depth <= MAX_UNWRAP_DEPTH
  {
    && 0 <= i < |lines|
    && TryDecode(lines[i], depth).Some? && TryDecode(lines[i], depth).value.status.Failed?
    && forall j | 0 <= j < i :: TryDecode(lines[j], depth).None?
  }

  /** The first reply among these is a failure exactly when a failure comes before every other reply. */
  lemma {:induction false} FirstReplyFailsIff(lines: seq<Doc>, depth: nat)
    requires depth <= MAX_UNWRAP_DEPTH
    ensures var r := FirstReply(lines, depth);
      r.Some? && r.value.status.Failed? <==> exists i :: FirstFailure(lines, depth, i)
  {
    if lines != [] && TryDecode(lines[0], depth).Some? && TryDecode(lines[0], depth).value.status.Failed? {
      assert FirstFailure(lines, depth, 0);
    }
    if lines != [] && TryDecode(lines[0], depth).None? {
      FirstReplyFailsIff(lines[1..], depth);
      if i :| FirstFailure(lines, depth, i) {
        assert lines[1..][i - 1] == lines[i];
        assert FirstFailure(lines[1..], depth, i - 1);
      }
      if i :| FirstFailure(lines[1..], depth, i) {
        assert lines[i + 1] == lines[1..][i];
        assert forall j | 1 <= j < i + 1 :: lines[j] == lines[1..][j - 1];
        assert FirstFailure(lines, depth, i + 1);
      }
    }
  }

  /** The documents an envelope is searched for, in their order: its result, the text in it as a whole, and
      the lines of that text. */
  function Candidates(result: Option<Field>): seq<Doc> {
    if result.None? then []
    else [result.value.direct] + match result.value.text
                                 case None => []
                                 case Some(text) => [text.whole] + text.lines
  }

  lemma EnvelopeTries(result: Option<Field>)
    ensures TryDecode(Envelope(false, result), 0) == FirstReply(Candidates(result), 1)
  {
    var docs := Candidates(result);
    if result.Some? {
      if result.value.text.Some? {
        assert docs[1..][1..] == result.value.text.value.lines;
      } else {
        assert docs[1..] == [];
      }
    }
  }

  /** An envelope counts as a failure exactly when it reports one itself, or one of the documents in it is a
      failure and none before it is a reply. */
  lemma EnvelopeFailsIff(error: bool, result: Option<Field>)
    ensures Fails(Envelope(error, result)) <==> error || exists i :: FirstFailure(Candidates(result), 1, i)
  {
    hide FirstFailure, Candidates;
    FirstReplyFailsIff(Candidates(result), 1);
    if !error {
      EnvelopeTries(result);
    }
  }

  /** Envelopes are opened to a depth of three. */
  function Nested(reply: Reply, depth: nat): Doc {
    if depth == 0 then Protocol(reply) else Envelope(false, Some(Field(Nested(reply, depth - 1), None)))
  }

  lemma {:induction false} NestedFrom(reply: Reply, depth: nat, at: nat)
    requires at <= MAX_UNWRAP_DEPTH
    ensures TryDecode(Nested(reply, depth), at) == if at + depth <= 3 then Some(reply) else None
    decreases depth
  {
    if depth > 0 && at < MAX_UNWRAP_DEPTH {
      NestedFrom(reply, depth - 1, at + 1);
    }
  }

  /** A reply is found in up to three envelopes, and in no more. */
  lemma UnwrapDepth(reply: Reply, depth: nat)
    ensures TryDecode(Nested(reply, depth), 0) == if depth <= 3 then Some(reply) else None
  {
    NestedFrom(reply, depth, 0);
  }
}
