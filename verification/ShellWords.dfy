/** The two decoders of a displayed shell command (src/native-evidence.js displayArgv,
    src/command-evidence.js literalWords). Both turn a line of literal words into the words
    and give up on anything a shell would expand, redirect or join. */
module ShellWords {
  import opened DomainStates

  datatype Dialect = Display | Literal

  datatype Quote = Bare | Single | Double

  datatype Reading = Reading(words: seq<string>, word: string, quote: Quote, started: bool)

  const Start := Reading([], "", Bare, false)

  predicate Space(c: char) {
    c == ' ' || ('\t' <= c <= '\r') || c == '\U{00A0}' || c == '\U{1680}' || ('\U{2000}' <= c <= '\U{200A}')
    || c == '\U{2028}' || c == '\U{2029}' || c == '\U{202F}' || c == '\U{205F}' || c == '\U{3000}' || c == '\U{FEFF}'
  }

  predicate Operator(c: char, d: Dialect) { c in ";|&<>\n\r()*?~[]{}" || (d.Display? && c == '#') }

  /** What a backslash escapes inside double quotes. */
  predicate Escapable(c: char) { c in "$`\"\\" }

  function EndWord(r: Reading): seq<string> { if r.started then r.words + [r.word] else r.words }

  /** The reading after one character that is not a backslash outside single quotes. */
  function Plain(r: Reading, c: char, d: Dialect): Option<Reading> {
    if r.quote.Single? then Some(if c == '\'' then r.(quote := Bare) else r.(word := r.word + [c]))
    else if r.quote.Double? && c == '"' then Some(r.(quote := Bare))
    else if r.quote.Bare? && c == '\'' then Some(r.(quote := Single, started := true))
    else if r.quote.Bare? && c == '"' then Some(r.(quote := Double, started := true))
    else if c == '$' || c == '`' || (r.quote.Bare? && Operator(c, d)) then None
    else if r.quote.Bare? && Space(c) then Some(Reading(EndWord(r), "", Bare, false))
    else Some(r.(word := r.word + [c], started := true))
  }

  /** The reading after a backslash and the character it precedes. */
  function Escaped(r: Reading, next: char, d: Dialect): Option<Reading> {
    if d.Display? && next == '\n' then None
    else
      var kept := if d.Display? && r.quote.Double? && !Escapable(next) then ['\\', next] else [next];
      Some(r.(word := r.word + kept, started := true))
  }

  predicate Escapes(r: Reading, text: string) { text != "" && text[0] == '\\' && !r.quote.Single? }

  function Finish(r: Reading): Option<seq<string>> {
    if !r.quote.Bare? then None else Some(EndWord(r))
  }

  function Decode(r: Reading, text: string, d: Dialect): Option<seq<string>>
    decreases |text|
  {
    if text == "" then Finish(r)
    else if Escapes(r, text) then
      if |text| == 1 || Escaped(r, text[1], d).None? then None else Decode(Escaped(r, text[1], d).value, text[2..], d)
    else if Plain(r, text[0], d).None? then None
    else Decode(Plain(r, text[0], d).value, text[1..], d)
  }

  function Words(text: string, d: Dialect): Option<seq<string>> { Decode(Start, text, d) }

  // ---------- The loops ----------

  method DisplayArgv(text: string) returns (decoded: Option<seq<string>>)
    ensures decoded == Words(text, Display)
  {
    var words: seq<string>, word: string, quote, started := [], "", Bare, false;
    var i := 0;
    while i < |text|
      invariant 0 <= i <= |text|
      invariant Decode(Reading(words, word, quote, started), text[i..], Display) == Words(text, Display)
    {
      var c := text[i];
      ghost var rest := text[i..];
      assert rest[1..] == text[i + 1..] && (|rest| > 1 ==> rest[2..] == text[i + 2..]);
      if quote.Single? {
        if c == '\'' { quote := Bare; } else { word := word + [c]; }
      } else if c == '\\' {
        i := i + 1;
        if i == |text| || text[i] == '\n' { return None; }
        var kept := if quote.Double? && !Escapable(text[i]) then ['\\', text[i]] else [text[i]];
        word, started := word + kept, true;
      } else if quote.Double? && c == '"' {
        quote := Bare;
      } else if quote.Bare? && (c == '\'' || c == '"') {
        quote, started := if c == '"' then Double else Single, true;
      } else if c == '$' || c == '`' || (quote.Bare? && Operator(c, Display)) {
        return None;
      } else if quote.Bare? && Space(c) {
        if started { words := words + [word]; }
        word, started := "", false;
      } else {
        word, started := word + [c], true;
      }
      i := i + 1;
    }
    if !quote.Bare? { return None; }
    if started { words := words + [word]; }
    return Some(words);
  }

  method LiteralWords(text: string) returns (decoded: Option<seq<string>>)
    ensures decoded == Words(text, Literal)
  {
    var words: seq<string>, word: string, quote, started := [], "", Bare, false;
    var i := 0;
    while i < |text|
      invariant 0 <= i <= |text|
      invariant Decode(Reading(words, word, quote, started), text[i..], Literal) == Words(text, Literal)
    {
      var c := text[i];
      ghost var rest := text[i..];
      assert rest[1..] == text[i + 1..] && (|rest| > 1 ==> rest[2..] == text[i + 2..]);
      if quote.Single? {
        if c == '\'' { quote := Bare; } else { word := word + [c]; }
      } else if c == '\\' {
        i := i + 1;
        if i == |text| { return None; }
        word, started := word + [text[i]], true;
      } else if quote.Double? && c == '"' {
        quote := Bare;
      } else if quote.Bare? && (c == '\'' || c == '"') {
        quote, started := if c == '"' then Double else Single, true;
      } else if c == '$' || c == '`' || (quote.Bare? && Operator(c, Literal)) {
        return None;
      } else if quote.Bare? && Space(c) {
        if started { words := words + [word]; }
        word, started := "", false;
      } else {
        word, started := word + [c], true;
      }
      i := i + 1;
    }
    if !quote.Bare? { return None; }
    if started { words := words + [word]; }
    return Some(words);
  }

  // ---------- Round trip ----------

  /** A word between single quotes; a quote inside is closed, escaped and reopened. */
  function SingleBody(w: string): string {
    if w == "" then "" else (if w[0] == '\'' then "'\\''" else [w[0]]) + SingleBody(w[1..])
  }

  /** A word between double quotes, with the characters escaped that section 2.2.3 of the
      POSIX.1-2017 Shell Command Language lets a backslash escape there. */
  function DoubleBody(w: string): string {
    if w == "" then "" else (if Escapable(w[0]) then ['\\', w[0]] else [w[0]]) + DoubleBody(w[1..])
  }

  datatype Printed = Printed(word: string, double: bool)

  function Quoted(p: Printed): string {
    if p.double then "\"" + DoubleBody(p.word) + "\"" else "'" + SingleBody(p.word) + "'"
  }

  function Line(ps: seq<Printed>): string
    decreases |ps|
  {
    if ps == [] then "" else Quoted(ps[0]) + (if |ps| == 1 then "" else " ") + Line(ps[1..])
  }

  function WordsOf(ps: seq<Printed>): seq<string>
    decreases |ps|
  {
    if ps == [] then [] else [ps[0].word] + WordsOf(ps[1..])
  }

  lemma PlainStep(r: Reading, c: char, rest: string, d: Dialect)
    requires !Escapes(r, [c] + rest) && Plain(r, c, d).Some?
    ensures Decode(r, [c] + rest, d) == Decode(Plain(r, c, d).value, rest, d)
  {
    assert ([c] + rest)[1..] == rest;
  }

  lemma EscapedStep(r: Reading, next: char, rest: string, d: Dialect)
    requires !r.quote.Single? && Escaped(r, next, d).Some?
    ensures Decode(r, ['\\', next] + rest, d) == Decode(Escaped(r, next, d).value, rest, d)
  {
    assert (['\\', next] + rest)[2..] == rest;
  }

  lemma {:induction false} SingleBodyRead(r: Reading, w: string, rest: string, d: Dialect)
    requires r.quote.Single? && r.started
    ensures Decode(r, SingleBody(w) + rest, d) == Decode(r.(word := r.word + w), rest, d)
    decreases |w|
  {
    if w == "" {
      assert SingleBody(w) + rest == rest && r.word + w == r.word;
    } else {
      var tail := SingleBody(w[1..]) + rest;
      var r1 := r.(word := r.word + [w[0]]);
      assert r1.word + w[1..] == r.word + w;
      SingleBodyRead(r1, w[1..], rest, d);
      if w[0] == '\'' {
        assert SingleBody(w) + rest == ['\''] + (['\\', '\''] + (['\''] + tail));
        PlainStep(r, '\'', ['\\', '\''] + (['\''] + tail), d);
        EscapedStep(r.(quote := Bare), '\'', ['\''] + tail, d);
        PlainStep(r1.(quote := Bare), '\'', tail, d);
      } else {
        assert SingleBody(w) + rest == [w[0]] + tail;
        PlainStep(r, w[0], tail, d);
      }
    }
  }

  lemma {:induction false} DoubleBodyRead(r: Reading, w: string, rest: string, d: Dialect)
    requires r.quote.Double? && r.started
    ensures Decode(r, DoubleBody(w) + rest, d) == Decode(r.(word := r.word + w), rest, d)
    decreases |w|
  {
    if w == "" {
      assert DoubleBody(w) + rest == rest && r.word + w == r.word;
    } else {
      var tail := DoubleBody(w[1..]) + rest;
      var r1 := r.(word := r.word + [w[0]]);
      assert r1.word + w[1..] == r.word + w;
      DoubleBodyRead(r1, w[1..], rest, d);
      if Escapable(w[0]) {
        assert DoubleBody(w) + rest == ['\\', w[0]] + tail;
        EscapedStep(r, w[0], tail, d);
      } else {
        assert DoubleBody(w) + rest == [w[0]] + tail;
        PlainStep(r, w[0], tail, d);
      }
    }
  }

  lemma QuotedRead(words: seq<string>, p: Printed, rest: string, d: Dialect)
    ensures Decode(Reading(words, "", Bare, false), Quoted(p) + rest, d)
      == Decode(Reading(words, p.word, Bare, true), rest, d)
  {
    var r := Reading(words, "", Bare, false);
    assert "" + p.word == p.word;
    if p.double {
      assert Quoted(p) + rest == ['"'] + (DoubleBody(p.word) + (['"'] + rest));
      PlainStep(r, '"', DoubleBody(p.word) + (['"'] + rest), d);
      DoubleBodyRead(r.(quote := Double, started := true), p.word, ['"'] + rest, d);
      PlainStep(Reading(words, p.word, Double, true), '"', rest, d);
    } else {
      assert Quoted(p) + rest == ['\''] + (SingleBody(p.word) + (['\''] + rest));
      PlainStep(r, '\'', SingleBody(p.word) + (['\''] + rest), d);
      SingleBodyRead(r.(quote := Single, started := true), p.word, ['\''] + rest, d);
      PlainStep(Reading(words, p.word, Single, true), '\'', rest, d);
    }
  }

  lemma LastRead(words: seq<string>, p: Printed, d: Dialect)
    ensures Decode(Reading(words, "", Bare, false), Line([p]), d) == Some(words + [p.word])
  {
    assert Line([p]) == Quoted(p) + "";
    QuotedRead(words, p, "", d);
  }

  lemma NextRead(words: seq<string>, p: Printed, rest: string, d: Dialect)
    ensures Decode(Reading(words, "", Bare, false), Quoted(p) + ([' '] + rest), d)
      == Decode(Reading(words + [p.word], "", Bare, false), rest, d)
  {
    QuotedRead(words, p, [' '] + rest, d);
    PlainStep(Reading(words, p.word, Bare, true), ' ', rest, d);
  }

  lemma {:induction false} LineRead(words: seq<string>, ps: seq<Printed>, d: Dialect)
    ensures Decode(Reading(words, "", Bare, false), Line(ps), d) == Some(words + WordsOf(ps))
    decreases |ps|
  {
    if ps == [] {
      assert words + WordsOf(ps) == words;
    } else if |ps| == 1 {
      assert ps == [ps[0]] && WordsOf(ps) == [ps[0].word];
      LastRead(words, ps[0], d);
    } else {
      assert Line(ps) == Quoted(ps[0]) + ([' '] + Line(ps[1..]));
      NextRead(words, ps[0], Line(ps[1..]), d);
      LineRead(words + [ps[0].word], ps[1..], d);
      assert words + [ps[0].word] + WordsOf(ps[1..]) == words + WordsOf(ps);
    }
  }

  /** Round trip: any list of words, whatever characters they hold and whichever way each is
      quoted, is recovered exactly, by both decoders. */
  lemma RoundTrip(ps: seq<Printed>, d: Dialect)
    ensures Words(Line(ps), d) == Some(WordsOf(ps))
  {
    LineRead([], ps, d);
    assert [] + WordsOf(ps) == WordsOf(ps);
  }

  // ---------- Agreement ----------

  /** Backslashes that displayArgv keeps: inside double quotes, before an ordinary character. */
  function Kept(r: Reading, text: string): nat
    decreases |text|
  {
    if text == "" then 0
    else if Escapes(r, text) then
      if |text| == 1 || Escaped(r, text[1], Display).None? then 0
      else if r.quote.Double? && !Escapable(text[1]) then 1 + Kept(Escaped(r, text[1], Display).value, text[2..])
      else Kept(Escaped(r, text[1], Display).value, text[2..])
    else if Plain(r, text[0], Display).None? then 0
    else Kept(Plain(r, text[0], Display).value, text[1..])
  }

  function Total(ws: seq<string>): nat { if ws == [] then 0 else |ws[|ws| - 1]| + Total(ws[..|ws| - 1]) }

  function Size(r: Reading): nat { Total(r.words) + |r.word| }

  /** Same place in the same text, with `lost` fewer characters read. */
  predicate Behind(a: Reading, b: Reading, lost: nat) {
    a.quote == b.quote && a.started == b.started && Size(a) == Size(b) + lost && (!a.started ==> a.word == b.word == "")
  }

  lemma TotalAppend(ws: seq<string>, w: string)
    ensures Total(ws + [w]) == Total(ws) + |w|
  {
    assert (ws + [w])[..|ws|] == ws;
  }

  lemma EndWordBehind(a: Reading, b: Reading, lost: nat)
    requires Behind(a, b, lost)
    ensures Total(EndWord(a)) == Total(EndWord(b)) + lost
  {
    TotalAppend(a.words, a.word);
    TotalAppend(b.words, b.word);
  }

  predicate Settled(r: Reading) { r.started || r.quote.Bare? }

  lemma QuotedBehind(a: Reading, b: Reading, c: char, lost: nat)
    requires Behind(a, b, lost) && Plain(a, c, Display).Some? && Settled(a) && !a.quote.Bare?
    ensures Plain(b, c, Literal).Some? && Behind(Plain(a, c, Display).value, Plain(b, c, Literal).value, lost)
    ensures Settled(Plain(a, c, Display).value)
  {
  }

  lemma BareBehind(a: Reading, b: Reading, c: char, lost: nat)
    requires Behind(a, b, lost) && Plain(a, c, Display).Some? && a.quote.Bare?
    ensures Plain(b, c, Literal).Some? && Behind(Plain(a, c, Display).value, Plain(b, c, Literal).value, lost)
    ensures Settled(Plain(a, c, Display).value)
  {
    if Space(c) && c !in "'\"$`" && !Operator(c, Display) { EndWordBehind(a, b, lost); }
  }

  lemma PlainBehind(a: Reading, b: Reading, c: char, lost: nat)
    requires Behind(a, b, lost) && Plain(a, c, Display).Some? && Settled(a)
    ensures Plain(b, c, Literal).Some? && Behind(Plain(a, c, Display).value, Plain(b, c, Literal).value, lost)
    ensures Settled(Plain(a, c, Display).value)
  {
    if a.quote.Bare? { BareBehind(a, b, c, lost); } else { QuotedBehind(a, b, c, lost); }
  }

  /** Where displayArgv reads words so does literalWords, and they are shorter by exactly the
      backslashes kept. */
  lemma {:induction false} LiteralLags(a: Reading, b: Reading, text: string, lost: nat)
    requires Behind(a, b, lost) && Decode(a, text, Display).Some? && Settled(a)
    ensures Decode(b, text, Literal).Some?
    ensures Total(Decode(a, text, Display).value) == Total(Decode(b, text, Literal).value) + lost + Kept(a, text)
    decreases |text|
  {
    if text == "" {
      EndWordBehind(a, b, lost);
    } else if Escapes(a, text) {
      var k := if a.quote.Double? && !Escapable(text[1]) then 1 else 0;
      LiteralLags(Escaped(a, text[1], Display).value, Escaped(b, text[1], Literal).value, text[2..], lost + k);
    } else {
      PlainBehind(a, b, text[0], lost);
      LiteralLags(Plain(a, text[0], Display).value, Plain(b, text[0], Literal).value, text[1..], lost);
    }
  }

  lemma {:induction false} NothingKeptSame(r: Reading, text: string)
    requires Decode(r, text, Display).Some? && Kept(r, text) == 0
    ensures Decode(r, text, Literal) == Decode(r, text, Display)
    decreases |text|
  {
    if text != "" {
      if Escapes(r, text) { NothingKeptSame(Escaped(r, text[1], Display).value, text[2..]); }
      else { NothingKeptSame(Plain(r, text[0], Display).value, text[1..]); }
    }
  }

  /** Agreement is exact: whenever displayArgv returns words, literalWords returns words too,
      and the same ones iff no backslash stands before an ordinary character inside double
      quotes. */
  lemma DecodersAgreeIff(text: string)
    requires Words(text, Display).Some?
    ensures Words(text, Literal).Some?
    ensures Words(text, Literal) == Words(text, Display) <==> Kept(Start, text) == 0
  {
    LiteralLags(Start, Start, text, 0);
    if Kept(Start, text) == 0 { NothingKeptSame(Start, text); }
  }

  // ---------- Nothing a shell would act on ----------

  /** A character that ends the reading wherever a complete line could have ended. */
  predicate Refused(c: char, d: Dialect) { c == '$' || c == '`' || Operator(c, d) }

  /** What either decoder accepts has no expansion and no operator in an open place: put one
      after any accepted beginning and the whole line is refused, whatever follows. */
  lemma {:induction false} ShellSyntaxRefused(r: Reading, before: string, c: char, rest: string, d: Dialect)
    requires Refused(c, d) && Decode(r, before, d).Some?
    ensures Decode(r, before + [c] + rest, d).None?
    decreases |before|
  {
    var text := before + [c] + rest;
    if before == "" {
      assert text == [c] + rest;
    } else if Escapes(r, before) {
      var next := Escaped(r, before[1], d).value;
      ShellSyntaxRefused(next, before[2..], c, rest, d);
      assert text == ['\\', before[1]] + (before[2..] + [c] + rest);
      EscapedStep(r, before[1], before[2..] + [c] + rest, d);
    } else {
      var next := Plain(r, before[0], d).value;
      ShellSyntaxRefused(next, before[1..], c, rest, d);
      assert text == [before[0]] + (before[1..] + [c] + rest);
      PlainStep(r, before[0], before[1..] + [c] + rest, d);
    }
  }
}
