/** Splitting a migration file into statements: comments are dropped, the rest is cut at semicolons. */
module SqlSplit {
  import opened Common
  import opened Text

  /** Where the first block-comment end at or after `from` starts. */
  function CloseAt(s: string, from: nat): (r: Option<nat>)
    ensures r.Some? ==> from <= r.value && r.value + 2 <= |s|
    decreases |s| - from
  {
    if from + 2 > |s| then None
    else if s[from] == '*' && s[from + 1] == '/' then Some(from)
    else CloseAt(s, from + 1)
  }

  /** Removes block comments, each up to its nearest end; an unclosed one stays. */
  function DropBlocks(s: string): string {
    if s == "" then ""
    else if |s| >= 2 && s[0] == '/' && s[1] == '*' && CloseAt(s, 2).Some? then DropBlocks(s[CloseAt(s, 2).value + 2..])
    else [s[0]] + DropBlocks(s[1..])
  }

  /** The text from the next newline on. */
  function RestOfLine(s: string): (r: string)
    ensures |r| <= |s|
  {
    if s == "" || s[0] == '\n' then s else RestOfLine(s[1..])
  }

  /** Removes line comments, leaving their newlines. */
  function DropLines(s: string): string
    decreases |s|
  {
    if s == "" then ""
    else if |s| >= 2 && s[0] == '-' && s[1] == '-' then DropLines(RestOfLine(s[2..]))
    else [s[0]] + DropLines(s[1..])
  }

  /** `s.split(sep)`. */
  function SplitAt(s: string, sep: char): (r: seq<string>)
    ensures r != []
  {
    if s == "" then [""]
    else
      var rest := SplitAt(s[1..], sep);
      if s[0] == sep then [""] + rest else [[s[0]] + rest[0]] + rest[1..]
  }

  /** Each part stripped, the empty ones left out. */
  function Kept(parts: seq<string>): seq<string> {
    if parts == [] then []
    else if Strip(parts[0]) != "" then [Strip(parts[0])] + Kept(parts[1..])
    else Kept(parts[1..])
  }

  /** The text without comments: the two substitutions, in the code's order. */
  function Stripped(sql: string): string {
    DropLines(DropBlocks(sql))
  }

  function SplitStatements(sql: string): seq<string> {
    Kept(SplitAt(Stripped(sql), ';'))
  }

  // ---- what a file is made of -----------------------------------------------

  /** `LastComment` is a line comment that the end of the file ends. */
  datatype Token = Code(text: string) | LineComment(text: string) | LastComment(text: string) | BlockComment(text: string) | Semicolon

  predicate NoPair(s: string, a: char, b: char) {
    forall i :: 0 <= i < |s| - 1 ==> !(s[i] == a && s[i + 1] == b)
  }

  /** `s` ends in `a` and `rest` goes on with `b`. */
  predicate Meets(s: string, a: char, rest: string, b: char) {
    s != "" && s[|s| - 1] == a && rest != "" && rest[0] == b
  }

  /** Every block comment that opens in `s` is closed in `s`. */
  predicate Closed(s: string)
    decreases |s|
  {
    if s == "" then true
    else if |s| >= 2 && s[0] == '/' && s[1] == '*' then CloseAt(s, 2).Some? && Closed(s[CloseAt(s, 2).value + 2..])
    else Closed(s[1..])
  }

  function Render(t: Token): string {
    match t
    case Code(text) => text
    case LineComment(text) => "--" + text + "\n"
    case LastComment(text) => "--" + text
    case BlockComment(text) => "/*" + text + "*/"
    case Semicolon => ";"
  }

  function RenderAll(ts: seq<Token>): string {
    if ts == [] then "" else Render(ts[0]) + RenderAll(ts[1..])
  }

  /** The file once its block comments are gone, those inside line comments included. */
  function WithoutBlocks(ts: seq<Token>): string {
    if ts == [] then ""
    else
      (match ts[0]
       case Code(text) => text
       case LineComment(text) => "--" + DropBlocks(text) + "\n"
       case LastComment(text) => "--" + DropBlocks(text)
       case BlockComment(_) => ""
       case Semicolon => ";") + WithoutBlocks(ts[1..])
  }

  /** Code holds no semicolon and starts no comment, nor does its last character together with what
      follows. A line comment may hold anything but a newline, and leave a block comment open only where
      nothing after it closes one; the last may leave one open at will. A block comment may hold
      anything but its own end. */
  predicate WellFormed(ts: seq<Token>) {
    ts == [] ||
    (&& WellFormed(ts[1..])
     && match ts[0]
        case Code(text) =>
          && ';' !in text && NoPair(text, '-', '-') && NoPair(text, '/', '*')
          && !Meets(text, '/', RenderAll(ts[1..]), '*') && !Meets(text, '-', WithoutBlocks(ts[1..]), '-')
        case LineComment(text) => '\n' !in text && (Closed(text) || NoPair(RenderAll(ts[1..]), '*', '/'))
        case LastComment(text) => '\n' !in text && ts[1..] == []
        case BlockComment(text) => NoPair(text, '*', '/')
        case Semicolon => true)
  }

  /** The statements of a file as its author means them: the code between semicolons, where a line
      comment still ends its line and a block comment leaves nothing. */
  function Segments(ts: seq<Token>): (r: seq<string>)
    ensures r != []
  {
    if ts == [] then [""]
    else
      var rest := Segments(ts[1..]);
      match ts[0]
      case Code(text) => [text + rest[0]] + rest[1..]
      case LineComment(_) => ["\n" + rest[0]] + rest[1..]
      case LastComment(_) => rest
      case BlockComment(_) => rest
      case Semicolon => [""] + rest
  }

  // ---- dropping block comments ----------------------------------------------

  lemma NoPairTail(s: string, a: char, b: char)
    requires NoPair(s, a, b) && s != ""
    ensures NoPair(s[1..], a, b)
  {
  }

  lemma {:induction false} PlainTextStays(text: string, rest: string)
    requires NoPair(text, '/', '*') && !Meets(text, '/', rest, '*')
    ensures DropBlocks(text + rest) == text + DropBlocks(rest)
  {
    if text == "" {
      assert text + rest == rest;
    } else {
      assert (text + rest)[1..] == text[1..] + rest;
      NoPairTail(text, '/', '*');
      PlainTextStays(text[1..], rest);
      if |text| >= 2 {
        assert !(text[0] == '/' && text[1] == '*');
      }
    }
  }

  lemma {:induction false} FirstClose(s: string, from: nat, at: nat)
    requires from <= at && at + 2 <= |s| && s[at] == '*' && s[at + 1] == '/'
    requires forall i :: from <= i < at ==> !(s[i] == '*' && s[i + 1] == '/')
    ensures CloseAt(s, from) == Some(at)
    decreases at - from
  {
    if from < at {
      FirstClose(s, from + 1, at);
    }
  }

  /** Where nothing closes a block nothing is dropped, opened or not. */
  lemma {:induction false} UnclosedStays(s: string)
    requires NoPair(s, '*', '/')
    ensures DropBlocks(s) == s
  {
    if s != "" {
      if |s| >= 2 {
        NoClose(s, 2);
      }
      NoPairTail(s, '*', '/');
      UnclosedStays(s[1..]);
    }
  }

  /** What `CloseAt` finds is the first end at or after `from`, if there is one. */
  lemma {:induction false} CloseAtIsFirst(s: string, from: nat)
    ensures CloseAt(s, from).Some? ==>
              var at := CloseAt(s, from).value;
              && s[at] == '*' && s[at + 1] == '/'
              && forall i :: from <= i < at ==> !(s[i] == '*' && s[i + 1] == '/')
    ensures CloseAt(s, from).None? ==> forall i :: from <= i < |s| - 1 ==> !(s[i] == '*' && s[i + 1] == '/')
    decreases |s| - from
  {
    if from + 2 <= |s| && !(s[from] == '*' && s[from + 1] == '/') {
      CloseAtIsFirst(s, from + 1);
    }
  }

  lemma {:induction false} NoClose(s: string, from: nat)
    requires forall i :: from <= i < |s| - 1 ==> !(s[i] == '*' && s[i + 1] == '/')
    ensures CloseAt(s, from).None?
    decreases |s| - from
  {
    if from + 2 <= |s| {
      NoClose(s, from + 1);
    }
  }

  lemma BlockGoes(text: string, rest: string)
    requires NoPair(text, '*', '/')
    ensures DropBlocks("/*" + text + "*/" + rest) == DropBlocks(rest)
  {
    var s := "/*" + text + "*/" + rest;
    var at := 2 + |text|;
    forall i | 2 <= i < at ensures !(s[i] == '*' && s[i + 1] == '/') {
      if i + 1 < at {
        assert s[i] == text[i - 2] && s[i + 1] == text[i - 1];
      } else {
        assert s[i + 1] == '*';
      }
    }
    FirstClose(s, 2, at);
    assert s[at + 2..] == rest;
  }

  /** The first end in a line is the first in the text that goes on after it. */
  lemma CloseInLine(text: string, tail: string)
    requires |text| >= 2 && tail != "" && tail[0] == '\n'
    ensures CloseAt(text, 2).Some? ==> CloseAt(text + tail, 2) == CloseAt(text, 2)
    ensures CloseAt(text, 2).None? && NoPair(tail, '*', '/') ==> CloseAt(text + tail, 2).None?
    ensures CloseAt(text, 2).None? && CloseAt(tail, 0).Some? ==>
              CloseAt(text + tail, 2) == Some(|text| + CloseAt(tail, 0).value)
  {
    var s, n := text + tail, |text|;
    CloseAtIsFirst(text, 2);
    CloseAtIsFirst(tail, 0);
    assert s[n] == '\n' && forall i :: n <= i < |s| ==> s[i] == tail[i - n];
    if CloseAt(text, 2).Some? {
      FirstClose(s, 2, CloseAt(text, 2).value);
    } else if CloseAt(tail, 0).Some? {
      FirstClose(s, 2, n + CloseAt(tail, 0).value);
    } else {
      NoClose(s, 2);
    }
  }

  lemma SuffixOf(text: string, tail: string, from: nat)
    requires from <= |text|
    ensures (text + tail)[from..] == text[from..] + tail
  {
  }

  /** No block is dropped at the start of `s`. */
  predicate Starts(s: string) {
    s != "" && !(|s| >= 2 && s[0] == '/' && s[1] == '*' && CloseAt(s, 2).Some?)
  }

  lemma OneMore(text: string, tail: string, front: string, back: string)
    requires Starts(text) && Starts(text + tail)
    requires DropBlocks(text[1..] + tail) == front + back
    ensures DropBlocks(text + tail) == ([text[0]] + front) + back
  {
    SuffixOf(text, tail, 1);
  }

  lemma StartsInLine(text: string, tail: string)
    requires Starts(text) && tail != "" && tail[0] == '\n'
    requires Closed(text) || NoPair(tail, '*', '/')
    ensures Starts(text + tail) && (Closed(text) ==> Closed(text[1..]))
  {
    if |text| >= 2 {
      CloseInLine(text, tail);
    }
  }

  /** Block comments inside one line go, and what comes after the line is as it would be without it. */
  lemma {:induction false} BlocksInLine(text: string, tail: string)
    requires tail != "" && tail[0] == '\n'
    requires Closed(text) || NoPair(tail, '*', '/')
    ensures DropBlocks(text + tail) == DropBlocks(text) + DropBlocks(tail)
    decreases |text|
  {
    if text == "" {
      assert text + tail == tail;
    } else if Starts(text) {
      StartsInLine(text, tail);
      BlocksInLine(text[1..], tail);
      OneMore(text, tail, DropBlocks(text[1..]), DropBlocks(tail));
    } else {
      var after := CloseAt(text, 2).value + 2;
      CloseInLine(text, tail);
      SuffixOf(text, tail, after);
      BlocksInLine(text[after..], tail);
    }
  }

  lemma NewlineKept(rest: string)
    ensures DropBlocks("\n" + rest) == "\n" + DropBlocks(rest)
  {
    PlainTextStays("\n", rest);
  }

  lemma LineKeepsRest(text: string, tail: string)
    requires tail != "" && tail[0] == '\n'
    requires Closed(text) || NoPair(tail, '*', '/')
    ensures DropBlocks("--" + (text + tail)) == "--" + (DropBlocks(text) + DropBlocks(tail))
  {
    PlainTextStays("--", text + tail);
    BlocksInLine(text, tail);
  }

  lemma NoCloseAfterNewline(rest: string)
    requires NoPair(rest, '*', '/')
    ensures NoPair("\n" + rest, '*', '/')
  {
    var s := "\n" + rest;
    forall i | 0 <= i < |s| - 1 ensures !(s[i] == '*' && s[i + 1] == '/') {
      if i > 0 {
        assert s[i] == rest[i - 1] && s[i + 1] == rest[i];
      }
    }
  }

  /** A line comment, as `Inert` and `Render` both write it. */
  lemma CommentLineBlocks(text: string, rest: string)
    requires Closed(text) || NoPair(rest, '*', '/')
    ensures DropBlocks("--" + text + "\n" + rest) == "--" + DropBlocks(text) + "\n" + DropBlocks(rest)
  {
    var tail := "\n" + rest;
    if NoPair(rest, '*', '/') {
      NoCloseAfterNewline(rest);
    }
    LineKeepsRest(text, tail);
    NewlineKept(rest);
    assert "--" + text + "\n" + rest == "--" + (text + tail);
    assert "--" + (DropBlocks(text) + ("\n" + DropBlocks(rest))) == "--" + DropBlocks(text) + "\n" + DropBlocks(rest);
  }

  lemma {:induction false} BlocksDropped(ts: seq<Token>)
    requires WellFormed(ts)
    ensures DropBlocks(RenderAll(ts)) == WithoutBlocks(ts)
  {
    if ts != [] {
      BlocksDropped(ts[1..]);
      var rest := RenderAll(ts[1..]);
      match ts[0]
      case Code(text) => PlainTextStays(text, rest);
      case LineComment(text) => CommentLineBlocks(text, rest);
      case LastComment(text) =>
        PlainTextStays("--", text);
        assert RenderAll(ts) == "--" + text && WithoutBlocks(ts) == "--" + DropBlocks(text);
      case BlockComment(text) =>
        BlockGoes(text, rest);
        assert RenderAll(ts) == "/*" + text + "*/" + rest;
      case Semicolon => PlainTextStays(";", rest);
    }
  }

  // ---- dropping line comments -----------------------------------------------

  function CodeText(ts: seq<Token>): string {
    if ts == [] then ""
    else
      (match ts[0]
       case Code(text) => text
       case LineComment(_) => "\n"
       case LastComment(_) => ""
       case BlockComment(_) => ""
       case Semicolon => ";") + CodeText(ts[1..])
  }

  lemma {:induction false} PlainLineStays(text: string, rest: string)
    requires NoPair(text, '-', '-') && !Meets(text, '-', rest, '-')
    ensures DropLines(text + rest) == text + DropLines(rest)
  {
    if text == "" {
      assert text + rest == rest;
    } else {
      assert (text + rest)[1..] == text[1..] + rest;
      NoPairTail(text, '-', '-');
      PlainLineStays(text[1..], rest);
      if |text| >= 2 {
        assert !(text[0] == '-' && text[1] == '-');
      }
    }
  }

  lemma {:induction false} RestAfter(text: string, rest: string)
    requires '\n' !in text
    ensures RestOfLine(text + rest) == RestOfLine(rest)
  {
    if text == "" {
      assert text + rest == rest;
    } else {
      assert (text + rest)[1..] == text[1..] + rest;
      RestAfter(text[1..], rest);
    }
  }

  /** From a comment's dashes on, a line goes whole. */
  lemma LineGoes(text: string, rest: string)
    requires '\n' !in text
    ensures DropLines("--" + text + rest) == DropLines(RestOfLine(rest))
  {
    assert ("--" + text + rest)[2..] == text + rest;
    RestAfter(text, rest);
  }

  lemma CommentLineGoes(text: string, rest: string)
    requires '\n' !in text
    ensures DropLines("--" + text + "\n" + rest) == "\n" + DropLines(rest)
  {
    LineGoes(text, "\n" + rest);
    assert "--" + text + "\n" + rest == "--" + text + ("\n" + rest);
    assert ("\n" + rest)[1..] == rest;
  }

  lemma {:induction false} NoNewNewline(text: string)
    requires '\n' !in text
    ensures '\n' !in DropBlocks(text)
    decreases |text|
  {
    if |text| >= 2 && text[0] == '/' && text[1] == '*' && CloseAt(text, 2).Some? {
      NoNewNewline(text[CloseAt(text, 2).value + 2..]);
    } else if text != "" {
      NoNewNewline(text[1..]);
    }
  }

  lemma {:induction false} LinesDropped(ts: seq<Token>)
    requires WellFormed(ts)
    ensures DropLines(WithoutBlocks(ts)) == CodeText(ts)
  {
    if ts != [] {
      LinesDropped(ts[1..]);
      var rest := WithoutBlocks(ts[1..]);
      match ts[0]
      case Code(text) => PlainLineStays(text, rest);
      case LineComment(text) =>
        NoNewNewline(text);
        CommentLineGoes(DropBlocks(text), rest);
      case LastComment(text) =>
        NoNewNewline(text);
        LineGoes(DropBlocks(text), "");
        assert WithoutBlocks(ts) == "--" + DropBlocks(text) + "";
      case BlockComment(_) => assert WithoutBlocks(ts) == rest;
      case Semicolon => PlainLineStays(";", rest);
    }
  }

  // ---- cutting at semicolons ------------------------------------------------

  lemma {:induction false} PlainCodeStaysWhole(text: string, rest: string)
    requires ';' !in text
    ensures SplitAt(text + rest, ';') == [text + SplitAt(rest, ';')[0]] + SplitAt(rest, ';')[1..]
  {
    if text == "" {
      assert text + rest == rest;
      assert [SplitAt(rest, ';')[0]] + SplitAt(rest, ';')[1..] == SplitAt(rest, ';');
      assert "" + SplitAt(rest, ';')[0] == SplitAt(rest, ';')[0];
    } else {
      assert (text + rest)[1..] == text[1..] + rest;
      PlainCodeStaysWhole(text[1..], rest);
      assert [text[0]] + (text[1..] + SplitAt(rest, ';')[0]) == text + SplitAt(rest, ';')[0];
    }
  }

  lemma {:induction false} CutAtSemicolons(ts: seq<Token>)
    requires WellFormed(ts)
    ensures SplitAt(CodeText(ts), ';') == Segments(ts)
  {
    if ts != [] {
      CutAtSemicolons(ts[1..]);
      var rest := CodeText(ts[1..]);
      match ts[0]
      case Code(text) => PlainCodeStaysWhole(text, rest);
      case LineComment(_) => PlainCodeStaysWhole("\n", rest);
      case LastComment(_) => assert CodeText(ts) == rest;
      case BlockComment(_) => assert CodeText(ts) == rest;
      case Semicolon => assert (";" + rest)[1..] == rest;
    }
  }

  /** The main result: whatever comments a file carries, and wherever it carries them, splitting its
      text gives back the code between its semicolons, trimmed, with the empty pieces left out. */
  lemma SplittingRecoversStatements(ts: seq<Token>)
    requires WellFormed(ts)
    ensures SplitStatements(RenderAll(ts)) == Kept(Segments(ts))
  {
    BlocksDropped(ts);
    LinesDropped(ts);
    CutAtSemicolons(ts);
  }

  // ---- when a line comment is harmless --------------------------------------

  /** The comment's line comes to nothing but its newline, and the rest is as it would be alone. */
  predicate Inert(comment: string, rest: string) {
    Stripped("--" + comment + "\n" + rest) == "\n" + Stripped(rest)
  }

  /** What precedes the block comment that `s` leaves open, less the blocks closed before it. */
  function BeforeOpen(s: string): string
    requires !Closed(s)
    decreases |s|
  {
    if |s| >= 2 && s[0] == '/' && s[1] == '*' then
      if CloseAt(s, 2).None? then "" else BeforeOpen(s[CloseAt(s, 2).value + 2..])
    else [s[0]] + BeforeOpen(s[1..])
  }

  /** A block opened at the start of `text` and not closed in it runs to the first end in `tail`. */
  lemma OpenAtStart(text: string, tail: string)
    requires |text| >= 2 && text[0] == '/' && text[1] == '*' && CloseAt(text, 2).None?
    requires tail != "" && tail[0] == '\n' && CloseAt(tail, 0).Some?
    ensures DropBlocks(text + tail) == DropBlocks(tail[CloseAt(tail, 0).value + 2..])
  {
    var s, at := text + tail, CloseAt(tail, 0).value;
    CloseInLine(text, tail);
    assert s[0] == text[0] && s[1] == text[1];
    OpeningGoes(s, |text| + at);
    PastText(text, tail, at + 2);
  }

  lemma OpeningGoes(s: string, at: nat)
    requires |s| >= 2 && s[0] == '/' && s[1] == '*' && CloseAt(s, 2) == Some(at)
    ensures DropBlocks(s) == DropBlocks(s[at + 2..])
  {
  }

  lemma PastText(text: string, tail: string, k: nat)
    requires k <= |tail|
    ensures (text + tail)[|text| + k..] == tail[k..]
  {
  }

  lemma {:induction false} OpenBlockSwallows(text: string, tail: string)
    requires !Closed(text) && tail != "" && tail[0] == '\n' && CloseAt(tail, 0).Some?
    ensures DropBlocks(text + tail) == BeforeOpen(text) + DropBlocks(tail[CloseAt(tail, 0).value + 2..])
    decreases |text|
  {
    var left := DropBlocks(tail[CloseAt(tail, 0).value + 2..]);
    if !Starts(text) {
      var after := CloseAt(text, 2).value + 2;
      CloseInLine(text, tail);
      SuffixOf(text, tail, after);
      OpenBlockSwallows(text[after..], tail);
    } else if |text| >= 2 && text[0] == '/' && text[1] == '*' {
      OpenAtStart(text, tail);
      assert BeforeOpen(text) + left == left;
    } else {
      OpenBlockSwallows(text[1..], tail);
      OneMore(text, tail, BeforeOpen(text[1..]), left);
    }
  }

  lemma {:induction false} BeforeOpenInLine(text: string)
    requires !Closed(text) && '\n' !in text
    ensures '\n' !in BeforeOpen(text)
    decreases |text|
  {
    if |text| >= 2 && text[0] == '/' && text[1] == '*' {
      if CloseAt(text, 2).Some? {
        BeforeOpenInLine(text[CloseAt(text, 2).value + 2..]);
      }
    } else {
      BeforeOpenInLine(text[1..]);
    }
  }

  lemma CloseAfterNewline(rest: string)
    requires CloseAt(rest, 0).Some?
    ensures CloseAt("\n" + rest, 0) == Some(CloseAt(rest, 0).value + 1)
  {
    CloseAtIsFirst(rest, 0);
    FirstClose("\n" + rest, 0, CloseAt(rest, 0).value + 1);
  }

  lemma OpenLineBlocks(comment: string, tail: string)
    requires !Closed(comment) && tail != "" && tail[0] == '\n' && CloseAt(tail, 0).Some?
    ensures DropBlocks("--" + (comment + tail))
         == "--" + BeforeOpen(comment) + DropBlocks(tail[CloseAt(tail, 0).value + 2..])
  {
    var left := DropBlocks(tail[CloseAt(tail, 0).value + 2..]);
    OpenBlockSwallows(comment, tail);
    PlainTextStays("--", comment + tail);
    assert "--" + (BeforeOpen(comment) + left) == "--" + BeforeOpen(comment) + left;
  }

  /** A line comment that leaves a block open takes with it everything up to the next block end, and
      then the rest of that line, statements and newlines included. */
  lemma OpenCommentSwallows(comment: string, rest: string)
    requires '\n' !in comment && !Closed(comment) && CloseAt(rest, 0).Some?
    ensures Stripped("--" + comment + "\n" + rest)
         == DropLines(RestOfLine(DropBlocks(rest[CloseAt(rest, 0).value + 2..])))
  {
    var tail, after := "\n" + rest, CloseAt(rest, 0).value + 2;
    CloseAfterNewline(rest);
    SuffixOf("\n", rest, 1);
    assert tail[after + 1..] == rest[after..];
    OpenLineBlocks(comment, tail);
    assert "--" + comment + "\n" + rest == "--" + (comment + tail);
    BeforeOpenInLine(comment);
    LineGoes(BeforeOpen(comment), DropBlocks(rest[after..]));
  }

  lemma HarmlessComment(comment: string, rest: string)
    requires '\n' !in comment && (Closed(comment) || NoPair(rest, '*', '/'))
    ensures Inert(comment, rest)
  {
    CommentLineBlocks(comment, rest);
    NoNewNewline(comment);
    CommentLineGoes(DropBlocks(comment), DropBlocks(rest));
  }

  /** Exactly what a line comment may hold to be harmless before every text: no block left open. */
  lemma HarmlessExactlyWhenClosed(comment: string)
    requires '\n' !in comment
    ensures Closed(comment) <==> forall rest :: Inert(comment, rest)
  {
    if Closed(comment) {
      forall rest ensures Inert(comment, rest) {
        HarmlessComment(comment, rest);
      }
    } else {
      OpenCommentSwallows(comment, "*/");
      assert "*/"[2..] == "";
      assert !Inert(comment, "*/");
    }
  }

  function Newlines(s: string): nat {
    if s == "" then 0 else (if s[0] == '\n' then 1 else 0) + Newlines(s[1..])
  }

  lemma {:induction false} NewlinesAppend(a: string, b: string)
    ensures Newlines(a + b) == Newlines(a) + Newlines(b)
  {
    if a == "" {
      assert a + b == b;
    } else {
      assert (a + b)[1..] == a[1..] + b;
      NewlinesAppend(a[1..], b);
    }
  }

  lemma {:induction false} RestKeepsNewlines(s: string)
    ensures Newlines(RestOfLine(s)) == Newlines(s)
  {
    if s != "" && s[0] != '\n' {
      RestKeepsNewlines(s[1..]);
    }
  }

  lemma {:induction false} LinesKeepNewlines(s: string)
    ensures Newlines(DropLines(s)) == Newlines(s)
    decreases |s|
  {
    if |s| >= 2 && s[0] == '-' && s[1] == '-' {
      LinesKeepNewlines(RestOfLine(s[2..]));
      RestKeepsNewlines(s[2..]);
      assert s == "--" + s[2..];
      NewlinesAppend("--", s[2..]);
    } else if s != "" {
      LinesKeepNewlines(s[1..]);
      assert ([s[0]] + DropLines(s[1..]))[1..] == DropLines(s[1..]);
    }
  }

  lemma StepKeepsNewlines(s: string)
    requires s != "" && !(|s| >= 2 && s[0] == '/' && s[1] == '*')
    ensures Newlines(DropBlocks(s)) >= Newlines(DropBlocks(s[1..]))
  {
    NewlinesAppend([s[0]], DropBlocks(s[1..]));
  }

  /** A block end that shares neither of its characters with a block start. */
  predicate PlainEnd(s: string, at: nat) {
    (0 < at <= |s| ==> s[at - 1] != '/') && (at + 2 < |s| ==> s[at + 2] != '*')
  }

  /** Dropping blocks leaves the text after the first block end alone, if that end is plain. */
  lemma {:induction false} TailSurvives(s: string, at: nat)
    requires CloseAt(s, 0) == Some(at) && PlainEnd(s, at)
    ensures Newlines(DropBlocks(s)) >= Newlines(DropBlocks(s[at + 2..]))
    decreases |s|
  {
    CloseAtIsFirst(s, 0);
    if |s| >= 2 && s[0] == '/' && s[1] == '*' {
      FirstClose(s, 2, at);
    } else if at == 0 {
      StepKeepsNewlines(s);
      assert s[1..][1..] == s[2..];
      StepKeepsNewlines(s[1..]);
    } else {
      FirstClose(s[1..], 0, at - 1);
      assert s[1..][at + 1..] == s[at + 2..];
      StepKeepsNewlines(s);
      TailSurvives(s[1..], at - 1);
    }
  }

  lemma PlainEndTells(comment: string, rest: string, at: nat)
    requires '\n' !in comment && !Closed(comment) && CloseAt(rest, 0) == Some(at) && PlainEnd(rest, at)
    ensures !Inert(comment, rest)
  {
    var left := DropBlocks(rest[at + 2..]);
    OpenCommentSwallows(comment, rest);
    TailSurvives(rest, at);
    LinesKeepNewlines(RestOfLine(left));
    RestKeepsNewlines(left);
    LinesKeepNewlines(DropBlocks(rest));
    NewlinesAppend("\n", Stripped(rest));
  }

  /** A text that can lose everything up to its first block end, and the rest of that line, without
      anyone noticing: that end must be part of a block start as well. */
  predicate HidesLoss(rest: string) {
    var close := CloseAt(rest, 0);
    && close.Some? && !PlainEnd(rest, close.value)
    && DropLines(RestOfLine(DropBlocks(rest[close.value + 2..]))) == "\n" + Stripped(rest)
  }

  /** Before one given text, whatever it is, a line comment is inert exactly when it leaves no block
      open, or nothing later closes one, or the text is one of the few that hide such a loss. */
  lemma InertExactlyWhen(comment: string, rest: string)
    requires '\n' !in comment
    ensures Inert(comment, rest) <==> Closed(comment) || CloseAt(rest, 0).None? || HidesLoss(rest)
  {
    CloseAtIsFirst(rest, 0);
    if Closed(comment) || CloseAt(rest, 0).None? {
      HarmlessComment(comment, rest);
    } else if PlainEnd(rest, CloseAt(rest, 0).value) {
      PlainEndTells(comment, rest, CloseAt(rest, 0).value);
    } else {
      OpenCommentSwallows(comment, rest);
    }
  }

  lemma OverlapSwallowed(z: string)
    ensures Stripped("--" + "/*" + "\n" + ("/*/" + ("\n" + ("--" + "*/" + "\n" + z)))) == "\n" + ("\n" + Stripped(z))
  {
    var line := "--" + "*/" + "\n" + z;
    var rest := "/*/" + ("\n" + line);
    FirstClose(rest, 0, 1);
    OpenCommentSwallows("/*", rest);
    assert rest[3..] == "\n" + line;
    NewlineKept(line);
    CommentLineBlocks("*/", z);
    NoNewNewline("*/");
    CommentLineGoes(DropBlocks("*/"), DropBlocks(z));
    PlainLineStays("\n", DropBlocks(line));
  }

  lemma OverlapAlone(z: string)
    ensures Stripped("/*/" + ("\n" + ("--" + "*/" + "\n" + z))) == "\n" + Stripped(z)
  {
    var rest := "/*/" + ("\n" + ("--" + "*/" + "\n" + z));
    assert rest == "/*" + "/\n--" + "*/" + ("\n" + z);
    BlockGoes("/\n--", "\n" + z);
    NewlineKept(z);
    PlainLineStays("\n", DropBlocks(z));
  }

  /** There are such texts: a block left open, and closed later in a slash-star-slash, can leave the
      text the same all the same. */
  lemma OverlapCanHide(z: string)
    ensures !Closed("/*") && Inert("/*", "/*/" + ("\n" + ("--" + "*/" + "\n" + z)))
    ensures HidesLoss("/*/" + ("\n" + ("--" + "*/" + "\n" + z)))
  {
    OverlapSwallowed(z);
    OverlapAlone(z);
    FirstClose("/*/" + ("\n" + ("--" + "*/" + "\n" + z)), 0, 1);
    InertExactlyWhen("/*", "/*/" + ("\n" + ("--" + "*/" + "\n" + z)));
  }

  // ---- printing then splitting ----------------------------------------------

  /** Statements joined by a semicolon and a newline, with groups of line comments before, between and
      after them; `ended` tells whether the last one has its semicolon too. */
  function Printed(statements: seq<string>, comments: seq<seq<string>>, ended: bool): (ts: seq<Token>)
    requires |comments| == |statements| + 1
    decreases |statements|
  {
    CommentLines(comments[0])
    + if statements == [] then []
      else
        PrintedStatement(statements[0], |statements| > 1 || ended, Printed(statements[1..], comments[1..], ended))
  }

  function PrintedStatement(s: string, ended: bool, rest: seq<Token>): seq<Token> {
    [Code(s)] + (if ended then [Semicolon] + ([Code("\n")] + rest) else [Code("\n")] + rest)
  }

  function CommentLines(lines: seq<string>): (ts: seq<Token>) {
    if lines == [] then [] else [LineComment(lines[0])] + CommentLines(lines[1..])
  }

  /** A trimmed statement that is not empty and holds no semicolon and no comment start. */
  predicate Printable(statement: string) {
    && statement != "" && Trimmed(statement)
    && ';' !in statement && NoPair(statement, '-', '-') && NoPair(statement, '/', '*')
  }

  /** Lines that leave no block open; they may hold semicolons, and blocks that they close. */
  predicate PrintableComments(lines: seq<string>) {
    forall i :: 0 <= i < |lines| ==> '\n' !in lines[i] && Closed(lines[i])
  }

  predicate AllPrintable(statements: seq<string>, comments: seq<seq<string>>) {
    && (forall i :: 0 <= i < |statements| ==> Printable(statements[i]))
    && (forall i :: 0 <= i < |comments| ==> PrintableComments(comments[i]))
  }

  /** Segments with `w` before the first. */
  function Padded(w: string, r: seq<string>): seq<string>
    requires r != []
  {
    [w + r[0]] + r[1..]
  }

  lemma PaddedTwice(v: string, w: string, r: seq<string>)
    requires r != []
    ensures Padded(v, Padded(w, r)) == Padded(v + w, r)
    ensures Padded("", r) == r
  {
    assert v + (w + r[0]) == (v + w) + r[0];
    assert "" + r[0] == r[0];
  }

  lemma SegmentsOfComment(line: string, rest: seq<Token>)
    ensures Segments([LineComment(line)] + rest) == Padded("\n", Segments(rest))
  {
    assert ([LineComment(line)] + rest)[1..] == rest;
  }

  lemma {:induction false} SegmentsAfterComments(lines: seq<string>, rest: seq<Token>) returns (w: string)
    ensures AllSpace(w) && Segments(CommentLines(lines) + rest) == Padded(w, Segments(rest))
  {
    if lines == [] {
      assert CommentLines(lines) + rest == rest;
      PaddedTwice("", "", Segments(rest));
      w := "";
    } else {
      var more := CommentLines(lines[1..]) + rest;
      var v := SegmentsAfterComments(lines[1..], rest);
      w := "\n" + v;
      SegmentsOfComment(lines[0], more);
      PaddedTwice("\n", v, Segments(rest));
      assert CommentLines(lines) + rest == [LineComment(lines[0])] + more;
    }
  }

  lemma SegmentsOfCode(text: string, rest: seq<Token>)
    ensures Segments([Code(text)] + rest) == Padded(text, Segments(rest))
  {
    assert ([Code(text)] + rest)[1..] == rest;
  }

  lemma EndedSegments(s: string, rest: seq<Token>)
    ensures Segments([Code(s)] + ([Semicolon] + rest)) == [s] + Segments(rest)
  {
    assert ([Semicolon] + rest)[1..] == rest;
    SegmentsOfCode(s, [Semicolon] + rest);
    assert s + "" == s;
  }

  lemma KeptHead(w: string, s: string, w': string, next: seq<string>)
    requires AllSpace(w) && AllSpace(w') && Trimmed(s) && s != ""
    ensures Kept([w + s + w'] + next) == [s] + Kept(next)
  {
    StripPadding(w, s, w');
    assert ([w + s + w'] + next)[1..] == next;
  }

  lemma KeptNothing(w: string)
    requires AllSpace(w)
    ensures Kept([w]) == []
  {
    StripPadding(w, "", "");
    assert w + "" + "" == w;
  }

  /** A statement that a semicolon ends is the first kept, and what follows is kept as it was. */
  lemma EndedStatement(w: string, s: string, rest: seq<Token>)
    requires AllSpace(w) && Trimmed(s) && s != ""
    ensures var r := Segments(PrintedStatement(s, true, rest));
            Kept(Padded(w, r)) == [s] + Kept(Padded("\n", Segments(rest)))
  {
    EndedSegments(s, [Code("\n")] + rest);
    SegmentsOfCode("\n", rest);
    KeptHead(w, s, "", Segments([Code("\n")] + rest));
    assert w + s + "" == w + s;
  }

  /** A last statement without a semicolon is kept without the comments after it. */
  lemma LastStatement(w: string, s: string, rest: seq<Token>, v: string)
    requires AllSpace(w) && AllSpace(v) && Trimmed(s) && s != "" && Segments(rest) == [v]
    ensures var r := Segments(PrintedStatement(s, false, rest));
            Kept(Padded(w, r)) == [s]
  {
    SegmentsOfCode("\n", rest);
    SegmentsOfCode(s, [Code("\n")] + rest);
    assert w + (s + ("\n" + v)) == w + s + ("\n" + v);
    KeptHead(w, s, "\n" + v, []);
    assert [w + s + ("\n" + v)] + [] == [w + s + ("\n" + v)];
  }

  lemma OnlyComments(lines: seq<string>) returns (v: string)
    ensures AllSpace(v) && Segments(CommentLines(lines)) == [v]
  {
    v := SegmentsAfterComments(lines, []);
    assert CommentLines(lines) + [] == CommentLines(lines) && v + "" == v;
    assert [v] + [] == [v];
  }

  lemma PaddedAfterComments(w: string, lines: seq<string>, rest: seq<Token>) returns (v: string)
    requires AllSpace(w)
    ensures AllSpace(v)
    ensures var r := Segments(CommentLines(lines) + rest);
            Padded(w, r) == Padded(v, Segments(rest))
  {
    var u := SegmentsAfterComments(lines, rest);
    v := w + u;
    PaddedTwice(w, u, Segments(rest));
  }

  lemma NothingPrinted(lines: seq<string>, w: string)
    requires AllSpace(w)
    ensures Kept(Padded(w, Segments(CommentLines(lines)))) == []
  {
    var v := OnlyComments(lines);
    KeptNothing(w + v);
  }

  /** A first statement that a semicolon ends, whatever is printed after it. */
  lemma FirstEnded(s: string, lines: seq<string>, more: seq<Token>, w: string)
    requires AllSpace(w) && Printable(s)
    ensures Kept(Padded(w, Segments(CommentLines(lines) + PrintedStatement(s, true, more))))
         == [s] + Kept(Padded("\n", Segments(more)))
  {
    var v := PaddedAfterComments(w, lines, PrintedStatement(s, true, more));
    EndedStatement(v, s, more);
  }

  /** An only statement without a semicolon. */
  lemma OnlyUnended(s: string, lines: seq<string>, last: seq<string>, w: string)
    requires AllSpace(w) && Printable(s)
    ensures Kept(Padded(w, Segments(CommentLines(lines) + PrintedStatement(s, false, CommentLines(last))))) == [s]
  {
    var v := PaddedAfterComments(w, lines, PrintedStatement(s, false, CommentLines(last)));
    var u := OnlyComments(last);
    LastStatement(v, s, CommentLines(last), u);
  }

  lemma PrintedNone(comments: seq<seq<string>>, ended: bool)
    requires |comments| == 1
    ensures Printed([], comments, ended) == CommentLines(comments[0])
  {
    assert CommentLines(comments[0]) + [] == CommentLines(comments[0]);
  }

  lemma PrintableTail(statements: seq<string>, comments: seq<seq<string>>)
    requires statements != [] && |comments| == |statements| + 1 && AllPrintable(statements, comments)
    ensures Printable(statements[0]) && AllPrintable(statements[1..], comments[1..])
  {
  }

  /** With white space before it, a printed file's segments are kept as exactly its statements. */
  lemma {:induction false} PrintedSegments(statements: seq<string>, comments: seq<seq<string>>, ended: bool, w: string)
    requires |comments| == |statements| + 1 && AllSpace(w) && AllPrintable(statements, comments)
    ensures Kept(Padded(w, Segments(Printed(statements, comments, ended)))) == statements
    decreases |statements|
  {
    if statements == [] {
      PrintedNone(comments, ended);
      NothingPrinted(comments[0], w);
    } else {
      var s, rest, later := statements[0], statements[1..], comments[1..];
      var more := Printed(rest, later, ended);
      PrintableTail(statements, comments);
      if |statements| > 1 || ended {
        FirstEnded(s, comments[0], more, w);
        PrintedSegments(rest, later, ended, "\n");
        assert [s] + rest == statements;
      } else {
        PrintedNone(later, ended);
        OnlyUnended(s, comments[0], later[0], w);
      }
    }
  }

  lemma {:induction false} CommentsWellFormed(lines: seq<string>, rest: seq<Token>)
    requires PrintableComments(lines) && WellFormed(rest)
    ensures WellFormed(CommentLines(lines) + rest)
  {
    if lines == [] {
      assert CommentLines(lines) + rest == rest;
    } else {
      assert (CommentLines(lines) + rest)[1..] == CommentLines(lines[1..]) + rest;
      CommentsWellFormed(lines[1..], rest);
    }
  }

  /** A printable statement may end in a dash or a slash: a semicolon or a newline always follows. */
  lemma StatementWellFormed(s: string, rest: seq<Token>)
    requires Printable(s) && WellFormed(rest) && rest != []
    requires rest[0] == Semicolon || rest[0] == Code("\n")
    ensures WellFormed([Code(s)] + rest)
  {
    assert ([Code(s)] + rest)[1..] == rest;
    assert RenderAll(rest)[0] == Render(rest[0])[0] && WithoutBlocks(rest)[0] == Render(rest[0])[0];
  }

  lemma PrintedStatementWellFormed(s: string, ended: bool, rest: seq<Token>)
    requires Printable(s) && WellFormed(rest)
    ensures WellFormed(PrintedStatement(s, ended, rest))
  {
    var line := [Code("\n")] + rest;
    assert line[1..] == rest && WellFormed(line);
    var ending := [Semicolon] + line;
    assert ending[1..] == line && WellFormed(ending);
    StatementWellFormed(s, if ended then ending else line);
  }

  lemma {:induction false} PrintedWellFormed(statements: seq<string>, comments: seq<seq<string>>, ended: bool)
    requires |comments| == |statements| + 1 && AllPrintable(statements, comments)
    ensures WellFormed(Printed(statements, comments, ended))
    decreases |statements|
  {
    if statements == [] {
      CommentsWellFormed(comments[0], []);
    } else {
      var more := Printed(statements[1..], comments[1..], ended);
      PrintedWellFormed(statements[1..], comments[1..], ended);
      PrintedStatementWellFormed(statements[0], |statements| > 1 || ended, more);
      CommentsWellFormed(comments[0], PrintedStatement(statements[0], |statements| > 1 || ended, more));
    }
  }

  /** Printing then splitting is the identity, whatever comments stand before, between and after. */
  lemma PrintThenSplit(statements: seq<string>, comments: seq<seq<string>>, ended: bool)
    requires |comments| == |statements| + 1 && AllPrintable(statements, comments)
    ensures SplitStatements(RenderAll(Printed(statements, comments, ended))) == statements
  {
    PrintedWellFormed(statements, comments, ended);
    SplittingRecoversStatements(Printed(statements, comments, ended));
    PrintedSegments(statements, comments, ended, "");
    PaddedTwice("", "", Segments(Printed(statements, comments, ended)));
  }
}
