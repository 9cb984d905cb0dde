/** The lines the two decoders read, as a grammar: blanks and pieces of words, where a piece is a
    bare character, an escaped one, or a stretch between quotes. What a line means is said without
    the decoders' state, and both decoders are shown to accept exactly these lines and to read
    exactly that from them. */
module ShellGrammar {
  import opened DomainStates
  import opened ShellWords

  /** What stands between double quotes. */
  datatype Mark = Letter(c: char) | Escape(c: char)

  datatype Token =
    | Blank(c: char)
    | Bare(c: char)
    | Slashed(c: char)
    | SingleQuoted(text: string)
    | DoubleQuoted(marks: seq<Mark>)

  /** White space that ends a word: a line break would end the command. */
  predicate IsBlank(c: char) {
    c in {' ', '\t', '\U{000B}', '\U{000C}', '\U{00A0}', '\U{1680}', '\U{202F}', '\U{205F}', '\U{3000}', '\U{FEFF}'}
    || '\U{2000}' <= c <= '\U{200A}' || c == '\U{2028}' || c == '\U{2029}'
  }

  /** A character that a shell would act on outside quotes. */
  predicate Acts(c: char, d: Dialect) {
    c in {';', '|', '&', '<', '>', '\n', '\r', '(', ')', '*', '?', '~', '[', ']', '{', '}', '$', '`'}
    || (d.Display? && c == '#')
  }

  predicate MarkFits(m: Mark, d: Dialect) {
    match m
    case Letter(c) => c !in {'"', '\\', '$', '`'}
    case Escape(c) => d.Display? ==> c != '\n'
  }

  predicate TokenFits(t: Token, d: Dialect) {
    match t
    case Blank(c) => IsBlank(c)
    case Bare(c) => !IsBlank(c) && !Acts(c, d) && c !in {'\'', '"', '\\'}
    case Slashed(c) => d.Display? ==> c != '\n'
    case SingleQuoted(text) => '\'' !in text
    case DoubleQuoted(marks) => forall m :: m in marks ==> MarkFits(m, d)
  }

  predicate LineFits(ts: seq<Token>, d: Dialect) { forall t :: t in ts ==> TokenFits(t, d) }

  function MarkText(m: Mark): string {
    match m
    case Letter(c) => [c]
    case Escape(c) => ['\\', c]
  }

  function MarksText(ms: seq<Mark>): string { if ms == [] then "" else MarkText(ms[0]) + MarksText(ms[1..]) }

  function TokenText(t: Token): string {
    match t
    case Blank(c) => [c]
    case Bare(c) => [c]
    case Slashed(c) => ['\\', c]
    case SingleQuoted(text) => "'" + text + "'"
    case DoubleQuoted(marks) => "\"" + MarksText(marks) + "\""
  }

  function LineText(ts: seq<Token>): string { if ts == [] then "" else TokenText(ts[0]) + LineText(ts[1..]) }

  /** Between double quotes displayArgv keeps a backslash that escapes nothing. */
  function MarkValue(m: Mark, d: Dialect): string {
    match m
    case Letter(c) => [c]
    case Escape(c) => if d.Display? && c !in {'$', '`', '"', '\\'} then ['\\', c] else [c]
  }

  function MarksValue(ms: seq<Mark>, d: Dialect): string {
    if ms == [] then "" else MarkValue(ms[0], d) + MarksValue(ms[1..], d)
  }

  /** What a piece adds to its word. */
  function Value(t: Token, d: Dialect): string {
    match t
    case Blank(_) => ""
    case Bare(c) => [c]
    case Slashed(c) => [c]
    case SingleQuoted(text) => text
    case DoubleQuoted(marks) => MarksValue(marks, d)
  }

  /** A word is a longest run of pieces, blanks or the ends around it; an empty pair of quotes is one. */
  function Meaning(ts: seq<Token>, d: Dialect): seq<string> {
    if ts == [] then [] else
      var before, last := ts[..|ts| - 1], ts[|ts| - 1];
      if last.Blank? then Meaning(before, d)
      else if Open(before) && Meaning(before, d) != []
      then Meaning(before, d)[..|Meaning(before, d)| - 1] + [Last(Meaning(before, d)) + Value(last, d)]
      else Meaning(before, d) + [Value(last, d)]
  }

  /** A word is under way at the end. */
  predicate Open(ts: seq<Token>) { ts != [] && !ts[|ts| - 1].Blank? }

  function Last(ws: seq<string>): string
    requires ws != []
  {
    ws[|ws| - 1]
  }

  lemma {:induction false} OpenMeans(ts: seq<Token>, d: Dialect)
    requires Open(ts)
    ensures Meaning(ts, d) != []
  {
  }

  // ---------- Reading a line ----------

  /** Where the decoder is after the tokens. */
  function After(ts: seq<Token>, d: Dialect): Reading {
    var ws := Meaning(ts, d);
    if Open(ts) && ws != [] then Reading(ws[..|ws| - 1], Last(ws), Quote.Bare, true)
    else Reading(ws, "", Quote.Bare, false)
  }

  lemma AfterBlank(ts: seq<Token>, c: char, d: Dialect)
    ensures After(ts + [Blank(c)], d) == Reading(EndWord(After(ts, d)), "", Quote.Bare, false)
  {
    assert (ts + [Blank(c)])[..|ts|] == ts;
    var ws := Meaning(ts, d);
    if Open(ts) { OpenMeans(ts, d); assert ws[..|ws| - 1] + [Last(ws)] == ws; }
  }

  lemma AfterPiece(ts: seq<Token>, t: Token, d: Dialect)
    requires !t.Blank?
    ensures var r := After(ts, d);
      After(ts + [t], d) == Reading(r.words, r.word + Value(t, d), Quote.Bare, true)
  {
    assert (ts + [t])[..|ts|] == ts;
    if Open(ts) { OpenMeans(ts, d); }
  }

  lemma {:induction false} SingleRead(r: Reading, text: string, rest: string, d: Dialect)
    requires r.quote.Single? && '\'' !in text
    ensures Decode(r, text + "'" + rest, d) == Decode(r.(word := r.word + text, quote := Quote.Bare), rest, d)
    decreases |text|
  {
    if text == "" {
      assert text + "'" + rest == ['\''] + rest && r.word + text == r.word;
      PlainStep(r, '\'', rest, d);
    } else {
      var tail := text[1..] + "'" + rest;
      assert text + "'" + rest == [text[0]] + tail;
      PlainStep(r, text[0], tail, d);
      SingleRead(r.(word := r.word + [text[0]]), text[1..], rest, d);
      assert r.word + [text[0]] + text[1..] == r.word + text;
    }
  }

  lemma MarkRead(r: Reading, m: Mark, rest: string, d: Dialect)
    requires r.quote.Double? && r.started && MarkFits(m, d)
    ensures Decode(r, MarkText(m) + rest, d) == Decode(r.(word := r.word + MarkValue(m, d)), rest, d)
  {
    if m.Letter? { PlainStep(r, m.c, rest, d); } else { EscapedStep(r, m.c, rest, d); }
  }

  lemma MarksSplit(ms: seq<Mark>, rest: string, d: Dialect, word: string)
    requires ms != []
    ensures MarksText(ms) + ("\"" + rest) == MarkText(ms[0]) + (MarksText(ms[1..]) + ("\"" + rest))
    ensures word + MarkValue(ms[0], d) + MarksValue(ms[1..], d) == word + MarksValue(ms, d)
  {
  }

  lemma DoubleEnds(r: Reading, rest: string, d: Dialect)
    requires r.quote.Double? && r.started
    ensures Decode(r, "\"" + rest, d) == Decode(r.(quote := Quote.Bare), rest, d)
  {
    PlainStep(r, '"', rest, d);
  }

  lemma {:induction false} DoubleRead(r: Reading, ms: seq<Mark>, rest: string, d: Dialect)
    requires r.quote.Double? && r.started && forall m :: m in ms ==> MarkFits(m, d)
    ensures Decode(r, MarksText(ms) + ("\"" + rest), d)
      == Decode(r.(word := r.word + MarksValue(ms, d), quote := Quote.Bare), rest, d)
    decreases |ms|
  {
    if ms == [] {
      assert MarksText(ms) + ("\"" + rest) == "\"" + rest && r.word + MarksValue(ms, d) == r.word;
      DoubleEnds(r, rest, d);
    } else {
      MarksSplit(ms, rest, d, r.word);
      MarkRead(r, ms[0], MarksText(ms[1..]) + ("\"" + rest), d);
      DoubleRead(r.(word := r.word + MarkValue(ms[0], d)), ms[1..], rest, d);
    }
  }

  /** A piece adds its value to the word under way, or begins one with it. */
  lemma PieceRead(r: Reading, t: Token, rest: string, d: Dialect)
    requires r.quote.Bare? && TokenFits(t, d) && !t.Blank?
    ensures Decode(r, TokenText(t) + rest, d)
      == Decode(Reading(r.words, r.word + Value(t, d), Quote.Bare, true), rest, d)
  {
    match t
    case Bare(c) => PlainStep(r, c, rest, d);
    case Slashed(c) => EscapedStep(r, c, rest, d);
    case SingleQuoted(text) =>
      assert TokenText(t) + rest == ['\''] + (text + "'" + rest);
      PlainStep(r, '\'', text + "'" + rest, d);
      SingleRead(r.(quote := Single, started := true), text, rest, d);
    case DoubleQuoted(marks) =>
      assert TokenText(t) + rest == ['"'] + (MarksText(marks) + ("\"" + rest));
      PlainStep(r, '"', MarksText(marks) + ("\"" + rest), d);
      DoubleRead(r.(quote := Double, started := true), marks, rest, d);
  }

  lemma BlankRead(r: Reading, c: char, rest: string, d: Dialect)
    requires r.quote.Bare? && IsBlank(c)
    ensures Decode(r, [c] + rest, d) == Decode(Reading(EndWord(r), "", Quote.Bare, false), rest, d)
  {
    PlainStep(r, c, rest, d);
  }

  lemma LineTextFirst(t: Token, ts: seq<Token>)
    ensures LineText([t] + ts) == TokenText(t) + LineText(ts)
  {
    assert ([t] + ts)[1..] == ts;
  }

  lemma {:induction false} LineTextGrows(ts: seq<Token>, t: Token)
    ensures LineText(ts + [t]) == LineText(ts) + TokenText(t)
  {
    if ts == [] {
      LineTextFirst(t, []);
      assert [] + [t] == [t] + [];
    } else {
      var first, rest := ts[0], ts[1..];
      assert ts == [first] + rest && ts + [t] == [first] + (rest + [t]);
      LineTextGrows(rest, t);
      LineTextFirst(first, rest);
      LineTextFirst(first, rest + [t]);
    }
  }

  lemma TokenRead(before: seq<Token>, t: Token, rest: string, d: Dialect)
    requires TokenFits(t, d)
    ensures Decode(After(before, d), TokenText(t) + rest, d) == Decode(After(before + [t], d), rest, d)
  {
    if t.Blank? {
      BlankRead(After(before, d), t.c, rest, d);
      AfterBlank(before, t.c, d);
    } else {
      PieceRead(After(before, d), t, rest, d);
      AfterPiece(before, t, d);
    }
  }

  lemma LineSplit(before: seq<Token>, t: Token, rest: string)
    ensures LineText(before + [t]) + rest == LineText(before) + (TokenText(t) + rest)
  {
    LineTextGrows(before, t);
  }

  lemma {:induction false} TokensRead(ts: seq<Token>, rest: string, d: Dialect)
    requires LineFits(ts, d)
    ensures Decode(Start, LineText(ts) + rest, d) == Decode(After(ts, d), rest, d)
    decreases |ts|
  {
    if ts == [] {
      assert LineText(ts) + rest == rest;
    } else {
      var before, t := ts[..|ts| - 1], ts[|ts| - 1];
      assert ts == before + [t];
      LineSplit(before, t, rest);
      TokensRead(before, TokenText(t) + rest, d);
      TokenRead(before, t, rest, d);
    }
  }

  /** Every line of the grammar is read as it means. */
  lemma LineReads(ts: seq<Token>, d: Dialect)
    requires LineFits(ts, d)
    ensures Words(LineText(ts), d) == Some(Meaning(ts, d))
  {
    TokensRead(ts, "", d);
    assert LineText(ts) + "" == LineText(ts);
    if Open(ts) {
      OpenMeans(ts, d);
      var ws := Meaning(ts, d);
      assert ws[..|ws| - 1] + [Last(ws)] == ws;
    }
  }

  // ---------- Reading nothing else ----------

  /** What is left of a line after a stretch between quotes. */
  datatype Rest = Rest(reading: Reading, text: string)

  predicate Reads(r: Rest, d: Dialect) { r.reading.quote.Bare? && Decode(r.reading, r.text, d).Some? }

  lemma {:induction false} SingleSplit(r: Reading, text: string, d: Dialect) returns (inner: string, rest: Rest)
    requires r.quote.Single? && Decode(r, text, d).Some?
    ensures '\'' !in inner && text == inner + "'" + rest.text && Reads(rest, d)
    decreases |text|
  {
    assert text == [text[0]] + text[1..];
    if text[0] == '\'' {
      inner, rest := "", Rest(r.(quote := Quote.Bare), text[1..]);
    } else {
      inner, rest := SingleSplit(r.(word := r.word + [text[0]]), text[1..], d);
      inner := [text[0]] + inner;
    }
  }

  lemma {:induction false} DoubleSplit(r: Reading, text: string, d: Dialect) returns (ms: seq<Mark>, rest: Rest)
    requires r.quote.Double? && Decode(r, text, d).Some?
    ensures (forall m :: m in ms ==> MarkFits(m, d)) && text == MarksText(ms) + "\"" + rest.text && Reads(rest, d)
    decreases |text|
  {
    if text[0] == '"' {
      ms, rest := [], Rest(r.(quote := Quote.Bare), text[1..]);
    } else if text[0] == '\\' {
      ms, rest := DoubleSplit(Escaped(r, text[1], d).value, text[2..], d);
      ms := [Escape(text[1])] + ms;
    } else {
      ms, rest := DoubleSplit(r.(word := r.word + [text[0]], started := true), text[1..], d);
      ms := [Letter(text[0])] + ms;
    }
  }

  lemma {:induction false} Tokens(r: Reading, text: string, d: Dialect) returns (ts: seq<Token>)
    requires r.quote.Bare? && Decode(r, text, d).Some?
    ensures LineFits(ts, d) && LineText(ts) == text
    decreases |text|
  {
    if text == "" { return []; }
    var t, rest := FirstToken(r, text, d);
    ts := Tokens(rest.reading, rest.text, d);
    ts := [t] + ts;
  }

  lemma FirstToken(r: Reading, text: string, d: Dialect) returns (t: Token, rest: Rest)
    requires r.quote.Bare? && Decode(r, text, d).Some? && text != ""
    ensures TokenFits(t, d) && text == TokenText(t) + rest.text && |rest.text| < |text| && Reads(rest, d)
  {
    var c := text[0];
    assert text == [c] + text[1..];
    if c == '\'' {
      var inner;
      inner, rest := SingleSplit(Plain(r, c, d).value, text[1..], d);
      t := SingleQuoted(inner);
    } else if c == '"' {
      var ms;
      ms, rest := DoubleSplit(Plain(r, c, d).value, text[1..], d);
      t := DoubleQuoted(ms);
    } else if c == '\\' {
      t, rest := Slashed(text[1]), Rest(Escaped(r, text[1], d).value, text[2..]);
    } else {
      t, rest := if IsBlank(c) then Blank(c) else Token.Bare(c), Rest(Plain(r, c, d).value, text[1..]);
    }
  }

  /** A line of the grammar, and the words it means. */
  ghost predicate Denotes(text: string, ws: seq<string>, d: Dialect) {
    exists ts :: LineFits(ts, d) && LineText(ts) == text && Meaning(ts, d) == ws
  }

  /** The grammar is exact: a decoder returns words iff the line belongs to the grammar and means them;
      on every other line it gives up. */
  lemma WordsIff(text: string, d: Dialect, ws: seq<string>)
    ensures Words(text, d) == Some(ws) <==> Denotes(text, ws, d)
  {
    if Words(text, d) == Some(ws) {
      var ts := Tokens(Start, text, d);
      LineReads(ts, d);
    }
    if Denotes(text, ws, d) {
      var ts :| LineFits(ts, d) && LineText(ts) == text && Meaning(ts, d) == ws;
      LineReads(ts, d);
    }
  }

  // ---------- Bare words ----------

  /** A word that needs no quotes. */
  predicate BareWord(w: string, d: Dialect) { w != "" && forall c :: c in w ==> TokenFits(Token.Bare(c), d) }

  /** Words with a space between them. */
  function Spaced(ws: seq<string>): string {
    if ws == [] then "" else Spaced(ws[..|ws| - 1]) + (if |ws| == 1 then "" else " ") + ws[|ws| - 1]
  }

  lemma BareAdded(ts: seq<Token>, c: char, d: Dialect)
    requires LineFits(ts, d) && TokenFits(Token.Bare(c), d)
    ensures var more := ts + [Token.Bare(c)];
      && LineFits(more, d) && Open(more) && LineText(more) == LineText(ts) + [c]
      && (!Open(ts) ==> Meaning(more, d) == Meaning(ts, d) + [[c]])
      && (Open(ts) ==>
            Meaning(ts, d) != []
            && Meaning(more, d) == Meaning(ts, d)[..|Meaning(ts, d)| - 1] + [Last(Meaning(ts, d)) + [c]])
  {
    assert (ts + [Token.Bare(c)])[..|ts|] == ts;
    LineTextGrows(ts, Token.Bare(c));
    if Open(ts) { OpenMeans(ts, d); }
  }

  lemma FirstAdded(ts: seq<Token>, w: string, d: Dialect) returns (more: seq<Token>)
    requires LineFits(ts, d) && !Open(ts) && BareWord(w, d) && |w| == 1
    ensures OneMore(ts, more, w, d)
  {
    assert w == [w[0]];
    BareAdded(ts, w[0], d);
    more := ts + [Token.Bare(w[0])];
  }

  lemma LastAdded(ws: seq<string>, word: string, c: char)
    ensures var all := ws + [word]; all[..|all| - 1] + [Last(all) + [c]] == ws + [word + [c]]
  {
    assert (ws + [word])[..|ws|] == ws;
  }

  /** `more` is the line with `w` as one more word, still under way. */
  ghost predicate OneMore(ts: seq<Token>, more: seq<Token>, w: string, d: Dialect) {
    LineFits(more, d) && Open(more) && LineText(more) == LineText(ts) + w && Meaning(more, d) == Meaning(ts, d) + [w]
  }

  lemma LetterAdded(ts: seq<Token>, start: seq<Token>, before: string, c: char, d: Dialect)
    requires OneMore(ts, start, before, d) && TokenFits(Token.Bare(c), d)
    ensures OneMore(ts, start + [Token.Bare(c)], before + [c], d)
  {
    BareAdded(start, c, d);
    LastAdded(Meaning(ts, d), before, c);
    assert LineText(start) + [c] == LineText(ts) + (before + [c]);
  }

  lemma {:induction false} WordAdded(ts: seq<Token>, w: string, d: Dialect) returns (more: seq<Token>)
    requires LineFits(ts, d) && !Open(ts) && BareWord(w, d)
    ensures OneMore(ts, more, w, d)
    decreases |w|
  {
    if |w| == 1 {
      more := FirstAdded(ts, w, d);
    } else {
      var before, c := w[..|w| - 1], w[|w| - 1];
      assert w == before + [c];
      var start := WordAdded(ts, before, d);
      LetterAdded(ts, start, before, c, d);
      more := start + [Token.Bare(c)];
    }
  }

  lemma BlankAdded(ts: seq<Token>, d: Dialect)
    requires LineFits(ts, d)
    ensures var more := ts + [Blank(' ')];
      LineFits(more, d) && !Open(more) && LineText(more) == LineText(ts) + " " && Meaning(more, d) == Meaning(ts, d)
  {
    assert (ts + [Blank(' ')])[..|ts|] == ts;
    LineTextGrows(ts, Blank(' '));
  }

  lemma {:induction false} SpacedTokens(ws: seq<string>, d: Dialect) returns (ts: seq<Token>)
    requires forall w :: w in ws ==> BareWord(w, d)
    ensures LineFits(ts, d) && LineText(ts) == Spaced(ws) && Meaning(ts, d) == ws && (ws == [] ==> ts == [])
  {
    if ws == [] { return []; }
    var before, w := ws[..|ws| - 1], ws[|ws| - 1];
    assert ws == before + [w];
    ts := SpacedTokens(before, d);
    if before != [] {
      BlankAdded(ts, d);
      ts := ts + [Blank(' ')];
    }
    ts := WordAdded(ts, w, d);
  }

  /** Words that need no quotes are read as they stand. */
  lemma BareWordsRead(ws: seq<string>, d: Dialect)
    requires forall w :: w in ws ==> BareWord(w, d)
    ensures Words(Spaced(ws), d) == Some(ws)
  {
    var ts := SpacedTokens(ws, d);
    LineReads(ts, d);
  }
}
