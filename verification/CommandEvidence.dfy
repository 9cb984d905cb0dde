/** Reading one command item's evidence (src/command-evidence.js). Text heuristics that
    recognise test commands are a parameter. */
module CommandEvidence {
  import opened DomainStates
  import opened ShellWords
  import opened ShellGrammar

  /** `Blank` is an id that JavaScript counts as false. */
  datatype Id = NoId | Blank | Named(n: nat)

  datatype StatusWord = StatusCompleted | StatusFailed | StatusError | StatusRunning | StatusInProgress | StatusOther

  /** `reference` is the identity of the JavaScript object; `outputs` are the texts of the output
      fields of the item and of its result, where present. */
  datatype Item = Item(
    reference: nat,
    id: Id,
    command: bool,
    text: string,
    exit: Option<int>,
    status: StatusWord,
    cwd: Option<nat>,
    outputs: seq<Option<string>>)

  /** isTestCommand and testCommandSource, read off the command's text. */
  datatype Recogniser = Recogniser(isTest: string -> bool, source: string -> Option<string>)

  predicate Succeeded(item: Item) {
    item.exit == Some(0) && item.status !in {StatusFailed, StatusError, StatusRunning, StatusInProgress}
  }

  // ---------- rg --files ----------

  predicate LineBreak(c: char) { c == '\n' || c == '\r' || c == '\U{2028}' || c == '\U{2029}' }

  predicate EndsWith(s: string, suffix: string) { |s| >= |suffix| && s[|s| - |suffix|..] == suffix }

  /** The shell's own name, after a directory or on its own. */
  predicate NamesShell(w: string, name: string) {
    EndsWith(w, name)
      && (|w| == |name| || (w[|w| - |name| - 1] == '/' && forall i :: 0 <= i < |w| - |name| - 1 ==> !LineBreak(w[i])))
  }

  predicate Shell(w: string) { NamesShell(w, "zsh") || NamesShell(w, "bash") || NamesShell(w, "sh") }

  predicate Wrapped(ws: Option<seq<string>>) {
    ws.Some? && |ws.value| == 3 && Shell(ws.value[0]) && ws.value[1] in {"-lc", "-cl", "-c"}
  }

  /** The words inside at most `depth` shells. */
  function Unwrapped(ws: Option<seq<string>>, depth: nat): Option<seq<string>>
    decreases depth
  {
    if depth > 0 && Wrapped(ws) then Unwrapped(Words(ws.value[2], Literal), depth - 1) else ws
  }

  predicate GlobFlag(a: string) { a == "-g" || a == "--glob" || a == "--iglob" }

  predicate GlobAssignment(a: string) {
    (a[..if |a| < 7 then |a| else 7] == "--glob=" && |a| > 7 && !LineBreak(a[7]))
    || (a[..if |a| < 8 then |a| else 8] == "--iglob=" && |a| > 8 && !LineBreak(a[8]))
  }

  predicate PathOperand(a: string) { a != "" && a[0] != '-' }

  predicate AllNonEmpty(ws: seq<string>) { forall w :: w in ws ==> w != "" }

  /** The argument loop: `enumeration` once --files was seen. */
  predicate FileArgs(args: seq<string>, enumeration: bool)
    decreases |args|
  {
    if args == [] then enumeration
    else if args[0] == "--files" then FileArgs(args[1..], true)
    else if args[0] in {"--hidden", "--no-ignore"} then FileArgs(args[1..], enumeration)
    else if GlobFlag(args[0]) && |args| > 1 && args[1] != "" then FileArgs(args[2..], enumeration)
    else if GlobAssignment(args[0]) then FileArgs(args[1..], enumeration)
    else if args[0] == "--" then enumeration && AllNonEmpty(args[1..])
    else PathOperand(args[0]) && FileArgs(args[1..], enumeration)
  }

  predicate Ripgrep(w: string) { w in {"rg", "/usr/bin/rg", "/usr/local/bin/rg", "/opt/homebrew/bin/rg"} }

  predicate FileSearch(ws: Option<seq<string>>) {
    ws.Some? && ws.value != [] && Ripgrep(ws.value[0]) && FileArgs(ws.value[1..], false)
  }

  /** What `trim` removes. */
  predicate White(c: char) {
    c in {'\t', '\n', '\r', ' ', '\U{000B}', '\U{000C}', '\U{00A0}', '\U{1680}', '\U{202F}', '\U{205F}', '\U{3000}',
          '\U{FEFF}'}
    || '\U{2000}' <= c <= '\U{200A}' || c == '\U{2028}' || c == '\U{2029}'
  }

  predicate AllWhite(s: string) { forall i :: 0 <= i < |s| ==> White(s[i]) }

  function TrimStart(s: string): string { if s != "" && White(s[0]) then TrimStart(s[1..]) else s }

  function TrimEnd(s: string): string { if s != "" && White(s[|s| - 1]) then TrimEnd(s[..|s| - 1]) else s }

  /** Nothing is left after trimming iff there is nothing but white space. */
  lemma {:induction false} TrimmedAway(s: string)
    ensures TrimEnd(TrimStart(s)) == "" <==> AllWhite(s)
  {
    if s != "" && White(s[0]) {
      TrimmedAway(s[1..]);
      assert s == [s[0]] + s[1..];
    } else if s != "" {
      TrimEndStops(s);
    }
  }

  lemma {:induction false} TrimEndStops(s: string)
    requires s != "" && !White(s[0])
    ensures TrimEnd(s) != ""
  {
    if White(s[|s| - 1]) { TrimEndStops(s[..|s| - 1]); }
  }

  /** No output at all: no field of the item or its result holds more than white space. */
  predicate Silent(item: Item) {
    forall i :: 0 <= i < |item.outputs| && item.outputs[i].Some? ==> AllWhite(item.outputs[i].value)
  }

  predicate EmptyFileSearch(item: Item) {
    && item.exit == Some(1) && item.status in {StatusCompleted, StatusFailed} && Silent(item)
    && FileSearch(Unwrapped(Words(item.text, Literal), 2))
  }

  method ReadFileArgs(args: seq<string>) returns (ok: bool)
    ensures ok <==> FileArgs(args, false)
  {
    var enumeration, i := false, 0;
    while i < |args|
      invariant 0 <= i <= |args|
      invariant FileArgs(args[i..], enumeration) <==> FileArgs(args, false)
    {
      ghost var rest := args[i..];
      assert rest[1..] == args[i + 1..] && (|rest| > 1 ==> rest[2..] == args[i + 2..]);
      if args[i] == "--files" { enumeration := true; }
      else if args[i] in {"--hidden", "--no-ignore"} { }
      else if GlobFlag(args[i]) && i + 1 < |args| && args[i + 1] != "" { i := i + 1; }
      else if GlobAssignment(args[i]) { }
      else if args[i] == "--" { return enumeration && AllNonEmpty(args[i + 1..]); }
      else if !PathOperand(args[i]) { return false; }
      i := i + 1;
    }
    ok := enumeration;
  }

  method IsEmptyFileSearch(item: Item) returns (empty: bool)
    ensures empty <==> EmptyFileSearch(item)
    ensures empty <==> FoundNothing(item)
  {
    EmptyFileSearchIff(item);
    if item.exit != Some(1) { return false; }
    if item.status !in {StatusCompleted, StatusFailed} { return false; }
    for i := 0 to |item.outputs|
      invariant forall k :: 0 <= k < i && item.outputs[k].Some? ==> AllWhite(item.outputs[k].value)
    {
      if item.outputs[i].Some? {
        TrimmedAway(item.outputs[i].value);
        if TrimEnd(TrimStart(item.outputs[i].value)) != "" { return false; }
      }
    }
    var words := LiteralWords(item.text);
    var depth := 0;
    while depth < 2 && Wrapped(words)
      invariant 0 <= depth <= 2
      invariant Unwrapped(words, 2 - depth) == Unwrapped(Words(item.text, Literal), 2)
    {
      words := LiteralWords(words.value[2]);
      depth := depth + 1;
    }
    if words.None? || words.value == [] || !Ripgrep(words.value[0]) { return false; }
    empty := ReadFileArgs(words.value[1..]);
  }

  // ---------- What the arguments can be ----------

  datatype Operand =
    | Files | Option_(flag: string) | Glob(flag: string, pattern: string) | GlobIs(flag: string, pattern: string)
    | Path(path: string)

  predicate Proper(o: Operand) {
    match o
    case Files => true
    case Option_(flag) => flag in {"--hidden", "--no-ignore"}
    case Glob(flag, pattern) => flag in {"-g", "--glob", "--iglob"} && pattern != ""
    case GlobIs(flag, pattern) =>
      flag in {"--glob=", "--iglob="} && pattern != ""
      && pattern[0] !in {'\n', '\r', '\U{2028}', '\U{2029}'}
    case Path(path) => path != "" && path[0] != '-'
  }

  function Shown(o: Operand): seq<string> {
    match o
    case Files => ["--files"]
    case Option_(flag) => [flag]
    case Glob(flag, pattern) => [flag, pattern]
    case GlobIs(flag, pattern) => [flag + pattern]
    case Path(path) => [path]
  }

  predicate AllProper(os: seq<Operand>) { forall o :: o in os ==> Proper(o) }

  function ShownAll(os: seq<Operand>): seq<string> { if os == [] then [] else Shown(os[0]) + ShownAll(os[1..]) }

  /** After `--` everything is a path. */
  predicate Tail(rest: seq<string>) { rest == [] || (rest[0] == "--" && AllNonEmpty(rest[1..])) }

  lemma OperandRead(o: Operand, rest: seq<string>, enumeration: bool)
    requires Proper(o)
    ensures FileArgs(Shown(o) + rest, enumeration) <==> FileArgs(rest, enumeration || o.Files?)
  {
    var args := Shown(o) + rest;
    if o.Glob? { assert args[2..] == rest; } else { assert args[1..] == rest; }
  }

  lemma {:induction false} OperandsRead(os: seq<Operand>, rest: seq<string>, enumeration: bool)
    requires AllProper(os) && Tail(rest)
    ensures FileArgs(ShownAll(os) + rest, enumeration) <==> enumeration || Files in os
  {
    if os == [] {
      assert ShownAll(os) + rest == rest;
    } else {
      assert ShownAll(os) + rest == Shown(os[0]) + (ShownAll(os[1..]) + rest);
      OperandRead(os[0], ShownAll(os[1..]) + rest, enumeration);
      OperandsRead(os[1..], rest, enumeration || os[0].Files?);
    }
  }

  /** The first operand of an accepted list. */
  function First(args: seq<string>): Operand
    requires args != []
  {
    if args[0] == "--files" then Files
    else if args[0] in {"--hidden", "--no-ignore"} then Option_(args[0])
    else if GlobFlag(args[0]) && |args| > 1 && args[1] != "" then Glob(args[0], args[1])
    else if GlobAssignment(args[0]) then
      var n := if args[0][..7] == "--glob=" then 7 else 8;
      GlobIs(args[0][..n], args[0][n..])
    else Path(args[0])
  }

  lemma FirstProper(args: seq<string>, enumeration: bool)
    requires args != [] && FileArgs(args, enumeration) && args[0] != "--"
    ensures var o := First(args);
      Proper(o) && |Shown(o)| <= |args| && args == Shown(o) + args[|Shown(o)|..]
      && FileArgs(args[|Shown(o)|..], enumeration || o.Files?)
  {
    var a := args[0];
    if GlobAssignment(a) {
      assert a[..7] == "--glob=" ==> a == a[..7] + a[7..];
      assert a[..7] != "--glob=" ==> a == a[..8] + a[8..];
    }
  }

  lemma {:induction false} AcceptedArgs(args: seq<string>, enumeration: bool)
    returns (os: seq<Operand>, rest: seq<string>)
    requires FileArgs(args, enumeration)
    ensures args == ShownAll(os) + rest && AllProper(os) && Tail(rest) && (enumeration || Files in os)
    decreases |args|
  {
    if args == [] || args[0] == "--" {
      os, rest := [], args;
    } else {
      var o := First(args);
      FirstProper(args, enumeration);
      os, rest := AcceptedArgs(args[|Shown(o)|..], enumeration || o.Files?);
      ShownMore(o, os, rest);
      os := [o] + os;
    }
  }

  lemma ShownMore(o: Operand, os: seq<Operand>, rest: seq<string>)
    ensures ShownAll([o] + os) + rest == Shown(o) + (ShownAll(os) + rest)
    ensures Proper(o) && AllProper(os) ==> AllProper([o] + os)
  {
    assert ([o] + os)[1..] == os;
  }

  ghost predicate Enumeration(args: seq<string>) {
    exists os, rest :: args == ShownAll(os) + rest && AllProper(os) && Tail(rest) && Files in os
  }

  /** The arguments accepted are exactly those of a file enumeration: --files among listed
      flags, patterns and path operands, then possibly `--` and paths. */
  lemma FileArgsIff(args: seq<string>)
    ensures FileArgs(args, false) <==> Enumeration(args)
  {
    if FileArgs(args, false) {
      var os, rest := AcceptedArgs(args, false);
    }
    if Enumeration(args) {
      var os, rest :| args == ShownAll(os) + rest && AllProper(os) && Tail(rest) && Files in os;
      OperandsRead(os, rest, false);
    }
  }

  // ---------- The search, in the words of the command line ----------

  /** Nothing, or a path on one line that ends with a slash. */
  predicate Directory(dir: string) {
    dir == "" || (dir[|dir| - 1] == '/'
                  && forall i :: 0 <= i < |dir| - 1 ==> dir[i] !in {'\n', '\r', '\U{2028}', '\U{2029}'})
  }

  ghost predicate ShellName(w: string) {
    exists dir: string, name: string :: w == dir + name && name in {"zsh", "bash", "sh"} && Directory(dir)
  }

  /** A shell that is handed one script. */
  ghost predicate ShellCall(ws: seq<string>) {
    |ws| == 3 && ShellName(ws[0]) && ws[1] in {"-lc", "-cl", "-c"}
  }

  /** The words of the command, taken out of at most `depth` shells. */
  ghost predicate Runs(text: string, ws: seq<string>, depth: nat)
    decreases depth
  {
    exists outer :: Denotes(text, outer, Literal)
      && if depth > 0 && ShellCall(outer) then Runs(outer[2], ws, depth - 1) else ws == outer
  }

  lemma NamedMeans(w: string, name: string)
    requires name != ""
    ensures NamesShell(w, name) <==> exists dir: string :: w == dir + name && Directory(dir)
  {
    if NamesShell(w, name) {
      var dir := w[..|w| - |name|];
      assert w == dir + name && Directory(dir);
    }
    if dir: string :| w == dir + name && Directory(dir) {
      assert w[|w| - |name|..] == name;
      assert forall i :: 0 <= i < |dir| ==> w[i] == dir[i];
    }
  }

  lemma ShellMeans(w: string)
    ensures Shell(w) <==> ShellName(w)
  {
    NamedMeans(w, "zsh");
    NamedMeans(w, "bash");
    NamedMeans(w, "sh");
  }

  lemma {:induction false} RunsMeans(text: string, ws: seq<string>, depth: nat)
    ensures Unwrapped(Words(text, Literal), depth) == Some(ws) <==> Runs(text, ws, depth)
    decreases depth
  {
    var outer := Words(text, Literal);
    forall w ensures outer == Some(w) <==> Denotes(text, w, Literal) { WordsIff(text, Literal, w); }
    if outer.Some? {
      if |outer.value| == 3 { ShellMeans(outer.value[0]); }
      assert Wrapped(outer) <==> ShellCall(outer.value);
      if depth > 0 && Wrapped(outer) { RunsMeans(outer.value[2], ws, depth - 1); }
    }
  }

  /** No output field holds anything but white space. */
  predicate NoOutput(item: Item) {
    forall i :: 0 <= i < |item.outputs| && item.outputs[i].Some? ==>
      forall k :: 0 <= k < |item.outputs[i].value| ==>
        IsBlank(item.outputs[i].value[k]) || item.outputs[i].value[k] in {'\n', '\r'}
  }

  /** What counts as a search that found nothing: exit code 1 and no output of a command that is, inside
      at most two shells, ripgrep listing files. */
  ghost predicate FoundNothing(item: Item) {
    item.exit == Some(1) && item.status in {StatusCompleted, StatusFailed} && NoOutput(item)
    && exists ws :: Runs(item.text, ws, 2) && ListsFiles(ws)
  }

  ghost predicate ListsFiles(ws: seq<string>) {
    ws != [] && ws[0] in {"rg", "/usr/bin/rg", "/usr/local/bin/rg", "/opt/homebrew/bin/rg"} && Enumeration(ws[1..])
  }

  lemma WhiteMeans(c: char)
    ensures White(c) <==> IsBlank(c) || c in {'\n', '\r'}
    ensures Space(c) <==> White(c)
  {
  }

  lemma EmptyFileSearchIff(item: Item)
    ensures EmptyFileSearch(item) <==> FoundNothing(item)
  {
    forall c ensures White(c) <==> IsBlank(c) || c in {'\n', '\r'} { WhiteMeans(c); }
    var found := Unwrapped(Words(item.text, Literal), 2);
    forall ws ensures found == Some(ws) <==> Runs(item.text, ws, 2) { RunsMeans(item.text, ws, 2); }
    if found.Some? && found.value != [] { FileArgsIff(found.value[1..]); }
  }

  // ---------- Superseded test failures ----------

  predicate Supersedes(next: Item, item: Item, t: Recogniser) {
    Succeeded(next) && t.source(next.text) == t.source(item.text) && next.cwd == item.cwd
  }

  /** A failed test command that a later identical one, in the same directory, has passed. */
  predicate SupersededTest(item: Item, later: seq<Item>, t: Recogniser) {
    item.cwd.Some? && t.isTest(item.text) && exists i :: 0 <= i < |later| && Supersedes(later[i], item, t)
  }
}
