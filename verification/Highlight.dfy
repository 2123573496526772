/** The lossless highlighter: tokens are wrapped in tags and text is escaped, and taking the tags
    out and decoding the entities gives back the source, character for character. The regular
    expressions are abstract: a match list is the input. */
module Highlight {
  import opened Wrappers

  /** One match of the grammar: where it starts, how long it is, and the rule that matched. */
  datatype Match = Match(start: nat, length: nat, kind: string)

  /** A piece of source; plain text has no kind. */
  datatype Piece = Piece(kind: Option<string>, text: string)

  // ── escaping ──────────────────────────────────────────────────────────────

  function Entity(c: char): (e: string)
    ensures |e| > 0
  {
    if c == '&' then "&amp;"
    else if c == '<' then "&lt;"
    else if c == '>' then "&gt;"
    else if c == '"' then "&quot;"
    else [c]
  }

  function Escape(text: string): string {
    if text == "" then "" else Entity(text[0]) + Escape(text[1..])
  }

  predicate StartsWith(s: string, p: string) {
    |p| <= |s| && s[..|p|] == p
  }

  /** What a browser reads: the four entities are characters, everything else is itself. */
  function DecodeEntities(s: string): string
    decreases |s|
  {
    if s == "" then ""
    else if StartsWith(s, "&amp;") then "&" + DecodeEntities(s[5..])
    else if StartsWith(s, "&lt;") then "<" + DecodeEntities(s[4..])
    else if StartsWith(s, "&gt;") then ">" + DecodeEntities(s[4..])
    else if StartsWith(s, "&quot;") then "\"" + DecodeEntities(s[6..])
    else s[..1] + DecodeEntities(s[1..])
  }

  lemma {:induction false} EscapeConcat(a: string, b: string)
    ensures Escape(a + b) == Escape(a) + Escape(b)
  {
    hide Entity;
    if a == "" {
      assert a + b == b;
    } else {
      EscapeConcat(a[1..], b);
      assert (a + b)[0] == a[0] && (a + b)[1..] == a[1..] + b;
      assert Escape(a + b) == Entity(a[0]) + (Escape(a[1..]) + Escape(b));
    }
  }

  /** Decoding one entity steps over exactly what escaping wrote. */
  lemma DecodeEntity(c: char, rest: string)
    ensures DecodeEntities(Entity(c) + rest) == [c] + DecodeEntities(rest)
  {
    var s := Entity(c) + rest;
    assert s[|Entity(c)|..] == rest && s[..|Entity(c)|] == Entity(c);
    if c == '&' {
      assert StartsWith(s, "&amp;");
    } else if c == '<' {
      assert s[..4] == "&lt;" && s[1] == 'l';
      assert !StartsWith(s, "&amp;") by { assert "&amp;"[1] == 'a'; }
    } else if c == '>' {
      assert s[..4] == "&gt;" && s[1] == 'g';
      assert !StartsWith(s, "&amp;") by { assert "&amp;"[1] == 'a'; }
      assert !StartsWith(s, "&lt;") by { assert "&lt;"[1] == 'l'; }
    } else if c == '"' {
      assert s[..6] == "&quot;" && s[1] == 'q';
      assert !StartsWith(s, "&amp;") by { assert "&amp;"[1] == 'a'; }
      assert !StartsWith(s, "&lt;") by { assert "&lt;"[1] == 'l'; }
      assert !StartsWith(s, "&gt;") by { assert "&gt;"[1] == 'g'; }
    } else {
      assert s[0] == c;
      assert !StartsWith(s, "&amp;") by { assert "&amp;"[0] == '&'; }
      assert !StartsWith(s, "&lt;") by { assert "&lt;"[0] == '&'; }
      assert !StartsWith(s, "&gt;") by { assert "&gt;"[0] == '&'; }
      assert !StartsWith(s, "&quot;") by { assert "&quot;"[0] == '&'; }
    }
  }

  /** Escaping is undone by decoding. */
  lemma {:induction false} DecodeEscape(text: string)
    ensures DecodeEntities(Escape(text)) == text
  {
    if text != "" {
      DecodeEntity(text[0], Escape(text[1..]));
      DecodeEscape(text[1..]);
      assert text == [text[0]] + text[1..];
    }
  }

  predicate Clean(s: string) {
    '<' !in s && '>' !in s && '"' !in s
  }

  /** Escaped text holds no markup character. */
  lemma {:induction false} EscapeIsClean(text: string)
    ensures Clean(Escape(text))
  {
    if text != "" { EscapeIsClean(text[1..]); }
  }

  // ── tags ──────────────────────────────────────────────────────────────────

  const Close := "</span>"
  const LineOpen := "<span class=\"line\">"

  function TokenOpen(kind: string): string {
    "<span class=\"tok-" + kind + "\">"
  }

  /** Remove everything from each `<` up to the next `>`. */
  function StripTags(s: string, inTag: bool): string {
    if s == "" then ""
    else if inTag then StripTags(s[1..], s[0] != '>')
    else if s[0] == '<' then StripTags(s[1..], true)
    else s[..1] + StripTags(s[1..], false)
  }

  /** Whether a string that starts outside a tag ends outside one. */
  predicate Closed(s: string, inTag: bool) {
    if s == "" then !inTag
    else if inTag then Closed(s[1..], s[0] != '>')
    else Closed(s[1..], s[0] == '<')
  }

  lemma {:induction false} StripConcat(a: string, b: string, inTag: bool)
    requires Closed(a, inTag)
    ensures StripTags(a + b, inTag) == StripTags(a, inTag) + StripTags(b, false)
    ensures Closed(a + b, inTag) <==> Closed(b, false)
  {
    if a == "" {
      assert a + b == b;
    } else {
      assert (a + b)[0] == a[0] && (a + b)[1..] == a[1..] + b && (a + b)[..1] == a[..1];
      StripConcat(a[1..], b, if inTag then a[0] != '>' else a[0] == '<');
    }
  }

  /** Text without `<` is left alone. */
  lemma {:induction false} StripText(s: string)
    requires '<' !in s
    ensures StripTags(s, false) == s && Closed(s, false)
  {
    if s != "" {
      assert s == s[..1] + s[1..];
      StripText(s[1..]);
    }
  }

  /** A tag: `<`, no `>` inside, `>`. */
  lemma {:induction false} StripTagBody(s: string)
    requires '>' !in s
    ensures StripTags(s + ">", true) == "" && Closed(s + ">", true)
  {
    var t := s + ">";
    if s == "" {
      assert t[1..] == "" && t[0] == '>';
    } else {
      assert t[0] == s[0] && t[1..] == s[1..] + ">";
      StripTagBody(s[1..]);
    }
  }

  lemma StripTag(body: string)
    requires '>' !in body
    ensures StripTags("<" + body + ">", false) == "" && Closed("<" + body + ">", false)
  {
    var s := "<" + body + ">";
    assert s[0] == '<' && s[1..] == body + ">";
    StripTagBody(body);
  }

  /** A fragment of output that reads as `text`: no tag is left open, and what is outside the
      tags is the escape of `text`. */
  ghost predicate Reads(html: string, text: string) {
    Closed(html, false) && StripTags(html, false) == Escape(text)
  }

  lemma ReadsConcat(a: string, b: string, s: string, t: string)
    requires Reads(a, s) && Reads(b, t)
    ensures Reads(a + b, s + t)
  {
    StripConcat(a, b, false);
    EscapeConcat(s, t);
  }

  lemma ReadsText(text: string)
    ensures Reads(Escape(text), text)
  {
    EscapeIsClean(text);
    StripText(Escape(text));
  }

  lemma TagReads(body: string)
    requires '>' !in body
    ensures Reads("<" + body + ">", "")
  {
    StripTag(body);
  }

  lemma TokenOpenReads(kind: string)
    requires '>' !in kind
    ensures Reads(TokenOpen(kind), "")
  {
    hide Reads;
    var body := "span class=\"tok-" + kind + "\"";
    TagReads(body);
    assert TokenOpen(kind) == "<" + body + ">";
  }

  lemma SpanReads()
    ensures Reads(LineOpen, "") && Reads(Close, "")
  {
    hide Reads;
    TagReads("span class=\"line\"");
    assert LineOpen == "<" + "span class=\"line\"" + ">";
    TagReads("/span");
    assert Close == "<" + "/span" + ">";
  }

  lemma ReadsTag(open: string, html: string, text: string)
    requires Reads(open, "") && Reads(html, text)
    ensures Reads(open + html + Close, text)
  {
    hide Reads;
    SpanReads();
    ReadsConcat(open, html, "", text);
    ReadsConcat(open + html, Close, "" + text, "");
    assert "" + text + "" == text;
  }

  /** The theorem a reader wants of any fragment: strip the tags, decode, and the text is back. */
  lemma ReadsBack(html: string, text: string)
    requires Reads(html, text)
    ensures DecodeEntities(StripTags(html, false)) == text
    ensures Clean(StripTags(html, false))
  {
    DecodeEscape(text);
    EscapeIsClean(text);
  }

  // ── tokenize, wrap, highlight ─────────────────────────────────────────────

  /** What a regular-expression scan promises: matches in order, not overlapping, inside the code,
      under rule names that are plain identifiers. */
  ghost predicate Ordered(matches: seq<Match>, last: nat, end: nat) {
    if matches == [] then last <= end
    else
      && last <= matches[0].start
      && Clean(matches[0].kind) && matches[0].kind != ""
      && Ordered(matches[1..], matches[0].start + matches[0].length, end)
  }

  lemma {:induction false} OrderedBounds(matches: seq<Match>, last: nat, end: nat)
    requires Ordered(matches, last, end)
    ensures last <= end
    ensures matches != [] ==> matches[0].start + matches[0].length <= end
  {
    if matches != [] { OrderedBounds(matches[1..], matches[0].start + matches[0].length, end); }
  }

  function PlainPiece(text: string): seq<Piece> {
    if text == "" then [] else [Piece(None, text)]
  }

  /** The pieces of `code` from `last` on. */
  function Pieces(code: string, matches: seq<Match>, last: nat): (p: seq<Piece>)
    requires Ordered(matches, last, |code|)
    decreases |matches|
  {
    OrderedBounds(matches, last, |code|);
    if matches == [] then PlainPiece(code[last..])
    else
      var m := matches[0];
      PlainPiece(code[last..m.start]) + [Piece(Some(m.kind), code[m.start..m.start + m.length])] +
      Pieces(code, matches[1..], m.start + m.length)
  }

  /** A language without a grammar is one plain piece. */
  function Tokens(code: string, matches: Option<seq<Match>>): seq<Piece>
    requires matches.Some? ==> Ordered(matches.value, 0, |code|)
  {
    if matches.None? then [Piece(None, code)] else Pieces(code, matches.value, 0)
  }

  function Wrap(p: Piece): string {
    match p.kind
    case None => Escape(p.text)
    case Some(kind) => if kind == "" then Escape(p.text) else TokenOpen(kind) + Escape(p.text) + Close
  }

  ghost predicate CleanKinds(pieces: seq<Piece>) {
    forall i :: 0 <= i < |pieces| && pieces[i].kind.Some? ==> Clean(pieces[i].kind.value)
  }

  function Texts(pieces: seq<Piece>): string {
    if pieces == [] then "" else Texts(pieces[..|pieces| - 1]) + pieces[|pieces| - 1].text
  }

  function WrapAll(pieces: seq<Piece>): string {
    if pieces == [] then "" else WrapAll(pieces[..|pieces| - 1]) + Wrap(pieces[|pieces| - 1])
  }

  lemma WrapReads(p: Piece)
    requires p.kind.Some? ==> Clean(p.kind.value)
    ensures Reads(Wrap(p), p.text)
  {
    hide Reads;
    ReadsText(p.text);
    if p.kind.Some? && p.kind.value != "" {
      TokenOpenReads(p.kind.value);
      ReadsTag(TokenOpen(p.kind.value), Escape(p.text), p.text);
    }
  }

  lemma {:induction false} WrapAllReads(pieces: seq<Piece>)
    requires CleanKinds(pieces)
    ensures Reads(WrapAll(pieces), Texts(pieces))
  {
    if pieces != [] {
      var front, p := pieces[..|pieces| - 1], pieces[|pieces| - 1];
      assert CleanKinds(front);
      WrapAllReads(front);
      WrapReads(p);
      ReadsConcat(WrapAll(front), Wrap(p), Texts(front), p.text);
    }
  }

  lemma {:induction false} TextsConcat(a: seq<Piece>, b: seq<Piece>)
    ensures Texts(a + b) == Texts(a) + Texts(b)
  {
    if b == [] {
      assert a + b == a;
    } else {
      assert (a + b)[..|a + b| - 1] == a + b[..|b| - 1];
      TextsConcat(a, b[..|b| - 1]);
    }
  }

  /** The pieces are the code, cut up: nothing lost, nothing twice. */
  lemma {:induction false} PiecesAreTheCode(code: string, matches: seq<Match>, last: nat)
    requires Ordered(matches, last, |code|)
    ensures last <= |code| && Texts(Pieces(code, matches, last)) == code[last..]
    ensures CleanKinds(Pieces(code, matches, last))
    decreases |matches|
  {
    hide Texts, PlainPiece;
    OrderedBounds(matches, last, |code|);
    if matches == [] {
      PlainText(code[last..]);
    } else {
      var m := matches[0];
      var next := m.start + m.length;
      OrderedBounds(matches[1..], next, |code|);
      var token := [Piece(Some(m.kind), code[m.start..next])];
      PiecesAreTheCode(code, matches[1..], next);
      PlainText(code[last..m.start]);
      OneText(token[0]);
      TextsConcat(PlainPiece(code[last..m.start]), token);
      TextsConcat(PlainPiece(code[last..m.start]) + token, Pieces(code, matches[1..], next));
      assert code[last..] == code[last..m.start] + code[m.start..next] + code[next..];
    }
  }

  lemma OneText(p: Piece)
    ensures Texts([p]) == p.text
  {
    assert [p][..0] == [];
    assert "" + p.text == p.text;
  }

  lemma PlainText(text: string)
    ensures Texts(PlainPiece(text)) == text && CleanKinds(PlainPiece(text))
  {
    if text != "" { OneText(Piece(None, text)); }
  }

  lemma TokensAreTheCode(code: string, matches: Option<seq<Match>>)
    requires matches.Some? ==> Ordered(matches.value, 0, |code|)
    ensures Texts(Tokens(code, matches)) == code && CleanKinds(Tokens(code, matches))
  {
    if matches.Some? {
      PiecesAreTheCode(code, matches.value, 0);
      assert code[0..] == code;
    } else {
      OneText(Piece(None, code));
    }
  }

  /** `highlight` loses nothing: strip the tags, decode the entities, and the code is back; and
      outside the tags no markup character survives. */
  lemma HighlightLossless(code: string, matches: Option<seq<Match>>)
    requires matches.Some? ==> Ordered(matches.value, 0, |code|)
    ensures var html := WrapAll(Tokens(code, matches));
            DecodeEntities(StripTags(html, false)) == code && Clean(StripTags(html, false)) && Closed(html, false)
  {
    TokensAreTheCode(code, matches);
    WrapAllReads(Tokens(code, matches));
    ReadsBack(WrapAll(Tokens(code, matches)), code);
  }

  // ── one span per line ─────────────────────────────────────────────────────

  /** `text.split("\n")`. */
  function Split(text: string): (parts: seq<string>)
    ensures |parts| >= 1
  {
    if text == "" then [""]
    else
      var front := Split(text[..|text| - 1]);
      if text[|text| - 1] == '\n' then front + [""]
      else front[..|front| - 1] + [front[|front| - 1] + [text[|text| - 1]]]
  }

  /** `parts.join("\n")`. */
  function Join(parts: seq<string>): string
    requires |parts| >= 1
  {
    if |parts| == 1 then parts[0] else Join(parts[..|parts| - 1]) + "\n" + parts[|parts| - 1]
  }

  lemma {:induction false} JoinSplit(text: string)
    ensures Join(Split(text)) == text
  {
    if text != "" {
      var front, c := Split(text[..|text| - 1]), text[|text| - 1];
      JoinSplit(text[..|text| - 1]);
      assert text == text[..|text| - 1] + [c];
      if c == '\n' {
        assert (front + [""])[..|front|] == front;
        assert Join(front) + "\n" + "" == text[..|text| - 1] + [c];
      } else {
        JoinLast(front, [c]);
      }
    }
  }

  /** Growing the last part grows the joined text. */
  lemma JoinLast(parts: seq<string>, s: string)
    requires |parts| >= 1
    ensures Join(parts[..|parts| - 1] + [parts[|parts| - 1] + s]) == Join(parts) + s
  {
    var grown := parts[..|parts| - 1] + [parts[|parts| - 1] + s];
    if |parts| > 1 {
      var front := parts[..|parts| - 1];
      assert grown[..|grown| - 1] == front;
      assert Join(front) + "\n" + (parts[|parts| - 1] + s) == Join(front) + "\n" + parts[|parts| - 1] + s;
    }
  }

  /** The lines under construction; the last one is open. */
  function AddPart(lines: seq<string>, kind: Option<string>, part: string): seq<string>
    requires |lines| >= 1
  {
    if part == "" then lines
    else lines[..|lines| - 1] + [lines[|lines| - 1] + Wrap(Piece(kind, part))]
  }

  /** The first `n` parts of one token: a new line before every part but the first. */
  function AddParts(lines: seq<string>, kind: Option<string>, parts: seq<string>, n: nat): (r: seq<string>)
    requires |lines| >= 1 && n <= |parts|
    ensures |r| >= 1
  {
    if n == 0 then lines
    else
      var before := AddParts(lines, kind, parts, n - 1);
      AddPart(if n == 1 then before else before + [""], kind, parts[n - 1])
  }

  function AddPieces(pieces: seq<Piece>): (lines: seq<string>)
    ensures |lines| >= 1
  {
    if pieces == [] then [""]
    else
      var p := pieces[|pieces| - 1];
      var parts := Split(p.text);
      AddParts(AddPieces(pieces[..|pieces| - 1]), p.kind, parts, |parts|)
  }

  function LineSpan(line: string): string {
    LineOpen + line + Close
  }

  function Spans(lines: seq<string>): (r: seq<string>)
    ensures |r| == |lines|
  {
    seq(|lines|, i requires 0 <= i < |lines| => LineSpan(lines[i]))
  }

  function HighlightedLines(code: string, matches: Option<seq<Match>>): string
    requires matches.Some? ==> Ordered(matches.value, 0, |code|)
  {
    Join(Spans(AddPieces(Tokens(code, matches))))
  }

  /** No line break inside a part. */
  ghost predicate Unbroken(parts: seq<string>) {
    forall i :: 0 <= i < |parts| ==> '\n' !in parts[i]
  }

  lemma {:induction false} SplitUnbroken(text: string)
    ensures Unbroken(Split(text))
  {
    if text != "" { SplitUnbroken(text[..|text| - 1]); }
  }

  /** Text without a break grows the last part; a break opens a new one. */
  lemma {:induction false} SplitAppend(text: string, s: string)
    requires '\n' !in s
    ensures var parts := Split(text);
            Split(text + s) == parts[..|parts| - 1] + [parts[|parts| - 1] + s]
  {
    var parts := Split(text);
    if s == "" {
      assert text + s == text && parts[|parts| - 1] + s == parts[|parts| - 1];
      assert parts == parts[..|parts| - 1] + [parts[|parts| - 1]];
    } else {
      var front, c := s[..|s| - 1], s[|s| - 1];
      SplitAppend(text, front);
      assert (text + s)[..|text + s| - 1] == text + front;
      assert c != '\n' && s == front + [c];
      assert parts[|parts| - 1] + front + [c] == parts[|parts| - 1] + s;
    }
  }

  lemma SplitEmpty()
    ensures Split("") == [""]
  {
  }

  lemma SplitBreak(text: string)
    ensures Split(text + "\n") == Split(text) + [""]
  {
    assert (text + "\n")[..|text + "\n"| - 1] == text;
  }

  /** Splitting the joined parts gives them back, when none holds a break. */
  lemma {:induction false} SplitJoin(parts: seq<string>)
    requires |parts| >= 1 && Unbroken(parts)
    ensures Split(Join(parts)) == parts
  {
    hide Split;
    var n := |parts| - 1;
    if n == 0 {
      SplitEmpty();
      SplitAppend("", parts[0]);
      assert "" + parts[0] == parts[0];
    } else {
      var front := parts[..n];
      SplitJoin(front);
      SplitBreak(Join(front));
      SplitAppend(Join(front) + "\n", parts[n]);
      assert "" + parts[n] == parts[n];
      assert parts == front + [parts[n]];
    }
  }

  /** Each line reads as its own text, without breaks, and together they read as `text`. */
  ghost predicate LinesRead(lines: seq<string>, texts: seq<string>, text: string) {
    && |lines| == |texts| >= 1
    && (forall i :: 0 <= i < |lines| ==> Reads(lines[i], texts[i]))
    && Unbroken(texts) && Join(texts) == text
  }

  lemma AddPartReads(lines: seq<string>, kind: Option<string>, part: string, texts: seq<string>, text: string)
      returns (texts': seq<string>)
    requires LinesRead(lines, texts, text) && (kind.Some? ==> Clean(kind.value)) && '\n' !in part
    ensures LinesRead(AddPart(lines, kind, part), texts', text + part)
  {
    hide Reads, Wrap;
    if part == "" {
      texts' := texts;
      assert text + part == text;
    } else {
      var n := |lines| - 1;
      WrapReads(Piece(kind, part));
      ReadsConcat(lines[n], Wrap(Piece(kind, part)), texts[n], part);
      texts' := texts[..n] + [texts[n] + part];
      JoinLast(texts, part);
    }
  }

  lemma NewLineReads(lines: seq<string>, texts: seq<string>, text: string)
    requires LinesRead(lines, texts, text)
    ensures LinesRead(lines + [""], texts + [""], text + "\n")
  {
    assert (texts + [""])[..|texts|] == texts;
    assert Join(texts + [""]) == text + "\n" + "";
    assert text + "\n" + "" == text + "\n";
    assert Reads("", "");
  }

  lemma {:induction false} AddPartsRead(lines: seq<string>, kind: Option<string>, parts: seq<string>, n: nat,
                                        texts: seq<string>, text: string) returns (texts': seq<string>)
    requires |lines| >= 1 && LinesRead(lines, texts, text) && (kind.Some? ==> Clean(kind.value)) && n <= |parts| &&
             Unbroken(parts)
    ensures LinesRead(AddParts(lines, kind, parts, n), texts', if n == 0 then text else text + Join(parts[..n]))
  {
    hide AddPart, LinesRead, Clean;
    if n == 0 {
      texts' := texts;
    } else {
      var before := AddParts(lines, kind, parts, n - 1);
      texts' := AddPartsRead(lines, kind, parts, n - 1, texts, text);
      if n == 1 {
        texts' := AddPartReads(before, kind, parts[0], texts', text);
        assert parts[..1] == [parts[0]];
      } else {
        var soFar := text + Join(parts[..n - 1]);
        NewLineReads(before, texts', soFar);
        texts' := AddPartReads(before + [""], kind, parts[n - 1], texts' + [""], soFar + "\n");
        assert parts[..n][..n - 1] == parts[..n - 1];
        assert soFar + "\n" + parts[n - 1] == text + (Join(parts[..n - 1]) + "\n" + parts[n - 1]);
      }
    }
  }

  lemma {:induction false} AddPiecesRead(pieces: seq<Piece>) returns (texts: seq<string>)
    requires CleanKinds(pieces)
    ensures LinesRead(AddPieces(pieces), texts, Texts(pieces))
  {
    if pieces == [] {
      texts := [""];
      assert Reads("", "");
    } else {
      var front, p := pieces[..|pieces| - 1], pieces[|pieces| - 1];
      assert CleanKinds(front);
      texts := AddPiecesRead(front);
      var parts := Split(p.text);
      SplitUnbroken(p.text);
      texts := AddPartsRead(AddPieces(front), p.kind, parts, |parts|, texts, Texts(front));
      assert parts[..|parts|] == parts;
      JoinSplit(p.text);
    }
  }

  lemma {:induction false} SpansRead(lines: seq<string>, texts: seq<string>)
    requires |lines| == |texts| >= 1 && forall i :: 0 <= i < |lines| ==> Reads(lines[i], texts[i])
    ensures Reads(Join(Spans(lines)), Join(texts))
    decreases |lines|
  {
    hide Reads, Escape, LineSpan;
    var n := |lines| - 1;
    LineReads(lines[n], texts[n]);
    if n > 0 {
      SpansRead(lines[..n], texts[..n]);
      assert Spans(lines)[..n] == Spans(lines[..n]);
      LineBreakReads();
      ReadsConcat(Join(Spans(lines[..n])), "\n", Join(texts[..n]), "\n");
      ReadsConcat(Join(Spans(lines[..n])) + "\n", LineSpan(lines[n]), Join(texts[..n]) + "\n", texts[n]);
    }
  }

  lemma LineReads(line: string, text: string)
    requires Reads(line, text)
    ensures Reads(LineSpan(line), text)
  {
    hide Reads;
    SpanReads();
    ReadsTag(LineOpen, line, text);
  }

  lemma LineBreakReads()
    ensures Reads("\n", "\n")
  {
    assert Escape("\n") == "\n" by { assert "\n"[1..] == ""; }
    ReadsText("\n");
  }

  /** `highlightLines` loses nothing either, tokens split across newlines included, and there is
      exactly one span per source line. */
  lemma HighlightLinesLossless(code: string, matches: Option<seq<Match>>)
    requires matches.Some? ==> Ordered(matches.value, 0, |code|)
    ensures var html := HighlightedLines(code, matches);
            DecodeEntities(StripTags(html, false)) == code && Clean(StripTags(html, false)) && Closed(html, false)
  {
    TokensAreTheCode(code, matches);
    var lines := AddPieces(Tokens(code, matches));
    var texts := AddPiecesRead(Tokens(code, matches));
    SpansRead(lines, texts);
    ReadsBack(Join(Spans(lines)), code);
  }

  /** And line by line: the markup of each line reads back as that line of the source. */
  lemma EachLineReadsBack(code: string, matches: Option<seq<Match>>, i: nat)
    requires matches.Some? ==> Ordered(matches.value, 0, |code|)
    requires i < |Split(code)|
    ensures var lines := AddPieces(Tokens(code, matches));
            && |lines| == |Split(code)| && Closed(LineSpan(lines[i]), false)
            && DecodeEntities(StripTags(LineSpan(lines[i]), false)) == Split(code)[i] &&
               Clean(StripTags(LineSpan(lines[i]), false))
  {
    hide LineSpan, DecodeEntities, StripTags, Clean, Split, Join, Tokens, AddPieces, Ordered;
    TokensAreTheCode(code, matches);
    var lines := AddPieces(Tokens(code, matches));
    var texts := AddPiecesRead(Tokens(code, matches));
    SplitJoin(texts);
    LineReads(lines[i], texts[i]);
    ReadsBack(LineSpan(lines[i]), texts[i]);
  }

  // ── line count ────────────────────────────────────────────────────────────

  function Newlines(s: string): nat {
    if s == "" then 0 else Newlines(s[..|s| - 1]) + if s[|s| - 1] == '\n' then 1 else 0
  }

  lemma {:induction false} NewlinesConcat(a: string, b: string)
    ensures Newlines(a + b) == Newlines(a) + Newlines(b)
  {
    if b == "" {
      assert a + b == a;
    } else {
      assert (a + b)[..|a + b| - 1] == a + b[..|b| - 1];
      NewlinesConcat(a, b[..|b| - 1]);
    }
  }

  lemma {:induction false} SplitCount(text: string)
    ensures |Split(text)| == Newlines(text) + 1
  {
    if text != "" { SplitCount(text[..|text| - 1]); }
  }

  lemma {:induction false} AddPartsCount(lines: seq<string>, kind: Option<string>, parts: seq<string>, n: nat)
    requires |lines| >= 1 && n <= |parts|
    ensures |AddParts(lines, kind, parts, n)| == |lines| + if n == 0 then 0 else n - 1
  {
    if n > 0 { AddPartsCount(lines, kind, parts, n - 1); }
  }

  /** One line span per source line. */
  lemma {:induction false} LineCount(pieces: seq<Piece>)
    ensures |AddPieces(pieces)| == Newlines(Texts(pieces)) + 1
  {
    if pieces != [] {
      var front, p := pieces[..|pieces| - 1], pieces[|pieces| - 1];
      LineCount(front);
      SplitCount(p.text);
      AddPartsCount(AddPieces(front), p.kind, Split(p.text), |Split(p.text)|);
      NewlinesConcat(Texts(front), p.text);
    }
  }

  lemma OneSpanPerLine(code: string, matches: Option<seq<Match>>)
    requires matches.Some? ==> Ordered(matches.value, 0, |code|)
    ensures |AddPieces(Tokens(code, matches))| == |Split(code)|
  {
    TokensAreTheCode(code, matches);
    LineCount(Tokens(code, matches));
    SplitCount(code);
  }

  // ── what a browser shows ──────────────────────────────────────────────────

  /** A character, and the classes of the spans it lies in, outermost first. */
  datatype Shown = Shown(classes: seq<string>, c: char)

  /** Text up to the first `end`, or all of it. */
  function Upto(s: string, end: char): (r: string)
    ensures |r| <= |s| && s[..|r|] == r
  {
    if s == "" || s[0] == end then "" else s[..1] + Upto(s[1..], end)
  }

  /** How a browser reads the markup: a span opens with its class, a closing tag ends the last one open,
      an entity is its character, and anything else is itself. */
  function Render(s: string, open: seq<string>): seq<Shown>
    decreases |s|
  {
    if s == "" then []
    else if StartsWith(s, "</span>") then Render(s[7..], if open == [] then [] else open[..|open| - 1])
    else if StartsWith(s, "<span class=\"") then
      var name := Upto(s[13..], '"');
      var rest := s[13 + |name|..];
      if |rest| < 2 then [] else Render(rest[2..], open + [name])
    else if StartsWith(s, "&amp;") then [Shown(open, '&')] + Render(s[5..], open)
    else if StartsWith(s, "&lt;") then [Shown(open, '<')] + Render(s[4..], open)
    else if StartsWith(s, "&gt;") then [Shown(open, '>')] + Render(s[4..], open)
    else if StartsWith(s, "&quot;") then [Shown(open, '"')] + Render(s[6..], open)
    else [Shown(open, s[0])] + Render(s[1..], open)
  }

  /** Text, all in spans of these classes. */
  function In(classes: seq<string>, text: string): seq<Shown> {
    seq(|text|, i requires 0 <= i < |text| => Shown(classes, text[i]))
  }

  /** A fragment that shows `shown` where the spans of `open` are open, and leaves just those open,
      whatever follows. */
  ghost predicate Shows(html: string, open: seq<string>, shown: seq<Shown>) {
    forall rest: string :: Render(html + rest, open) == shown + Render(rest, open)
  }

  lemma ShowsConcat(a: string, b: string, open: seq<string>, x: seq<Shown>, y: seq<Shown>)
    requires Shows(a, open, x) && Shows(b, open, y)
    ensures Shows(a + b, open, x + y)
  {
    hide Render;
    forall rest: string ensures Render(a + b + rest, open) == x + y + Render(rest, open) {
      assert a + b + rest == a + (b + rest);
      assert Render(a + (b + rest), open) == x + Render(b + rest, open);
    }
  }

  lemma ShowsNothing(open: seq<string>)
    ensures Shows("", open, [])
  {
    forall rest: string ensures Render("" + rest, open) == [] + Render(rest, open) {
      assert "" + rest == rest;
    }
  }

  /** What the whole output shows. */
  lemma Showing(html: string, shown: seq<Shown>)
    requires Shows(html, [], shown)
    ensures Render(html, []) == shown
  {
    assert html + "" == html;
  }

  lemma EntityShows(c: char, open: seq<string>, rest: string)
    ensures Render(Entity(c) + rest, open) == [Shown(open, c)] + Render(rest, open)
  {
    var s := Entity(c) + rest;
    assert s[|Entity(c)|..] == rest && s[..|Entity(c)|] == Entity(c);
    assert !StartsWith(s, "</span>") by { assert "</span>"[0] == '<'; }
    assert !StartsWith(s, "<span class=\"") by { assert "<span class=\""[0] == '<'; }
    if c == '&' {
      assert StartsWith(s, "&amp;");
    } else if c == '<' {
      assert s[..4] == "&lt;" && s[1] == 'l';
      assert !StartsWith(s, "&amp;") by { assert "&amp;"[1] == 'a'; }
    } else if c == '>' {
      assert s[..4] == "&gt;" && s[1] == 'g';
      assert !StartsWith(s, "&amp;") by { assert "&amp;"[1] == 'a'; }
      assert !StartsWith(s, "&lt;") by { assert "&lt;"[1] == 'l'; }
    } else if c == '"' {
      assert s[..6] == "&quot;" && s[1] == 'q';
      assert !StartsWith(s, "&amp;") by { assert "&amp;"[1] == 'a'; }
      assert !StartsWith(s, "&lt;") by { assert "&lt;"[1] == 'l'; }
      assert !StartsWith(s, "&gt;") by { assert "&gt;"[1] == 'g'; }
    } else {
      assert s[0] == c;
      assert !StartsWith(s, "&amp;") by { assert "&amp;"[0] == '&'; }
      assert !StartsWith(s, "&lt;") by { assert "&lt;"[0] == '&'; }
      assert !StartsWith(s, "&gt;") by { assert "&gt;"[0] == '&'; }
      assert !StartsWith(s, "&quot;") by { assert "&quot;"[0] == '&'; }
    }
  }

  lemma {:induction false} TextShows(text: string, open: seq<string>)
    ensures Shows(Escape(text), open, In(open, text))
  {
    hide Render, Entity;
    if text == "" {
      ShowsNothing(open);
    } else {
      TextShows(text[1..], open);
      forall rest: string ensures Render(Escape(text) + rest, open) == In(open, text) + Render(rest, open) {
        assert Escape(text) + rest == Entity(text[0]) + (Escape(text[1..]) + rest);
        EntityShows(text[0], open, Escape(text[1..]) + rest);
        assert In(open, text) == [Shown(open, text[0])] + In(open, text[1..]);
      }
    }
  }

  lemma {:induction false} UptoQuote(name: string, rest: string)
    requires '"' !in name
    ensures Upto(name + "\"" + rest, '"') == name
  {
    var s := name + "\"" + rest;
    if name != "" {
      UptoQuote(name[1..], rest);
      assert s[0] == name[0] && s[..1] == name[..1] && s[1..] == name[1..] + "\"" + rest;
      assert name == name[..1] + name[1..];
    }
  }

  /** Around what shows inside, a span adds its class. */
  lemma SpanShows(name: string, html: string, open: seq<string>, shown: seq<Shown>)
    requires '"' !in name && Shows(html, open + [name], shown)
    ensures Shows("<span class=\"" + name + "\">" + html + Close, open, shown)
  {
    hide Upto;
    forall rest: string
      ensures Render("<span class=\"" + name + "\">" + html + Close + rest, open) == shown + Render(rest, open)
    {
      var s := "<span class=\"" + name + "\">" + html + Close + rest;
      OpensSpan(name, html + (Close + rest), open);
      assert s == "<span class=\"" + name + "\">" + (html + (Close + rest));
      ClosesSpan(rest, open + [name]);
      assert (open + [name])[..|open|] == open;
    }
  }

  lemma OpensSpan(name: string, rest: string, open: seq<string>)
    requires '"' !in name
    ensures Render("<span class=\"" + name + "\">" + rest, open) == Render(rest, open + [name])
  {
    hide Upto;
    var s := "<span class=\"" + name + "\">" + rest;
    assert s[1] == 's' && s[..13] == "<span class=\"";
    assert !StartsWith(s, "</span>") by { assert "</span>"[1] == '/'; }
    assert s[13..] == name + "\"" + (">" + rest);
    UptoQuote(name, ">" + rest);
    assert s[13 + |name|..] == "\">" + rest;
    assert ("\">" + rest)[2..] == rest;
  }

  lemma ClosesSpan(rest: string, open: seq<string>)
    requires open != []
    ensures Render(Close + rest, open) == Render(rest, open[..|open| - 1])
  {
    var s := Close + rest;
    assert s[..7] == "</span>" && s[7..] == rest;
  }
  /** The class of a token, if it is one. */
  function ClassOf(kind: Option<string>): seq<string> {
    if kind.None? || kind.value == "" then [] else ["tok-" + kind.value]
  }

  /** The class of the match a position lies in, if any. */
  function ClassAt(matches: seq<Match>, i: nat): seq<string> {
    if matches == [] then []
    else if matches[0].start <= i < matches[0].start + matches[0].length then ["tok-" + matches[0].kind]
    else ClassAt(matches[1..], i)
  }

  /** The code from `last` on, each character in the class of its match. */
  function Colored(code: string, matches: seq<Match>, last: nat): seq<Shown>
    requires last <= |code|
  {
    seq(|code| - last, i requires 0 <= i < |code| - last => Shown(ClassAt(matches, last + i), code[last + i]))
  }

  function PiecesShown(pieces: seq<Piece>): seq<Shown> {
    if pieces == [] then []
    else PiecesShown(pieces[..|pieces| - 1]) + In(ClassOf(pieces[|pieces| - 1].kind), pieces[|pieces| - 1].text)
  }

  /** One piece shows its text, in a span of its class if it has one. */
  lemma WrapShows(p: Piece, open: seq<string>)
    requires p.kind.Some? ==> Clean(p.kind.value)
    ensures Shows(Wrap(p), open, In(open + ClassOf(p.kind), p.text))
  {
    hide Shows, In;
    if p.kind.Some? && p.kind.value != "" {
      var name := "tok-" + p.kind.value;
      TextShows(p.text, open + [name]);
      SpanShows(name, Escape(p.text), open, In(open + [name], p.text));
      assert "<span class=\"" + name + "\">" == TokenOpen(p.kind.value);
    } else {
      TextShows(p.text, open);
      assert open + [] == open;
    }
  }

  lemma {:induction false} WrapAllShows(pieces: seq<Piece>)
    requires CleanKinds(pieces)
    ensures Shows(WrapAll(pieces), [], PiecesShown(pieces))
  {
    hide Shows, In, Wrap, Clean;
    if pieces == [] {
      ShowsNothing([]);
    } else {
      var front, p := pieces[..|pieces| - 1], pieces[|pieces| - 1];
      assert CleanKinds(front);
      WrapAllShows(front);
      WrapShows(p, []);
      assert [] + ClassOf(p.kind) == ClassOf(p.kind);
      ShowsConcat(WrapAll(front), Wrap(p), [], PiecesShown(front), In(ClassOf(p.kind), p.text));
    }
  }

  lemma {:induction false} PiecesShownConcat(a: seq<Piece>, b: seq<Piece>)
    ensures PiecesShown(a + b) == PiecesShown(a) + PiecesShown(b)
  {
    hide In;
    if b == [] {
      assert a + b == a;
    } else {
      assert (a + b)[..|a + b| - 1] == a + b[..|b| - 1];
      PiecesShownConcat(a, b[..|b| - 1]);
    }
  }

  lemma PieceShown(p: Piece)
    ensures PiecesShown([p]) == In(ClassOf(p.kind), p.text)
  {
    assert [p][..0] == [];
    assert [] + In(ClassOf(p.kind), p.text) == In(ClassOf(p.kind), p.text);
  }

  lemma PlainShown(text: string)
    ensures PiecesShown(PlainPiece(text)) == In([], text)
  {
    if text != "" { PieceShown(Piece(None, text)); }
  }

  /** Before the first match nothing is coloured. */
  lemma {:induction false} NoClassBefore(matches: seq<Match>, last: nat, end: nat, i: nat)
    requires Ordered(matches, last, end) && i < last
    ensures ClassAt(matches, i) == []
  {
    if matches != [] { NoClassBefore(matches[1..], matches[0].start + matches[0].length, end, i); }
  }

  lemma ColoredSplit(code: string, matches: seq<Match>, last: nat)
    requires matches != [] && Ordered(matches, last, |code|)
    ensures var m := matches[0];
            var next := m.start + m.length;
            && last <= m.start <= next <= |code|
            && Colored(code, matches, last) ==
               In([], code[last..m.start]) + In(["tok-" + m.kind], code[m.start..next]) +
               Colored(code, matches[1..], next)
  {
    OrderedBounds(matches, last, |code|);
    var m := matches[0];
    var next := m.start + m.length;
    forall i | last <= i < m.start ensures ClassAt(matches, i) == [] { NoClassBefore(matches[1..], next, |code|, i); }
    var all := Colored(code, matches, last);
    var a, b := In([], code[last..m.start]), In(["tok-" + m.kind], code[m.start..next]);
    var c := Colored(code, matches[1..], next);
    forall k | 0 <= k < |all| ensures all[k] == (a + b + c)[k] {
      assert all[k] == Shown(ClassAt(matches, last + k), code[last + k]);
      if last + k < m.start {
        assert (a + b + c)[k] == a[k] == Shown([], code[last..m.start][k]);
      } else if last + k < next {
        var j := last + k - m.start;
        assert (a + b + c)[k] == b[j] == Shown(["tok-" + m.kind], code[m.start..next][j]);
      } else {
        var j := last + k - next;
        assert (a + b + c)[k] == c[j] == Shown(ClassAt(matches[1..], next + j), code[next + j]);
      }
    }
  }

  lemma {:induction false} PiecesColored(code: string, matches: seq<Match>, last: nat)
    requires Ordered(matches, last, |code|)
    ensures last <= |code| && PiecesShown(Pieces(code, matches, last)) == Colored(code, matches, last)
    decreases |matches|
  {
    hide PiecesShown, PlainPiece, Clean;
    OrderedBounds(matches, last, |code|);
    if matches == [] {
      PlainShown(code[last..]);
      forall k | 0 <= k < |code| - last ensures Colored(code, matches, last)[k] == In([], code[last..])[k] {
        assert ClassAt(matches, last + k) == [];
      }
    } else {
      var m := matches[0];
      var next := m.start + m.length;
      var plain, token := PlainPiece(code[last..m.start]), [Piece(Some(m.kind), code[m.start..next])];
      ColoredSplit(code, matches, last);
      PiecesColored(code, matches[1..], next);
      PlainShown(code[last..m.start]);
      PieceShown(token[0]);
      PiecesShownConcat(plain, token);
      PiecesShownConcat(plain + token, Pieces(code, matches[1..], next));
    }
  }

  /** The code as it should look: every character in the class of its match, and the rest in none; all
      of it in none where there is no grammar. */
  function Painted(code: string, matches: Option<seq<Match>>): seq<Shown> {
    Colored(code, if matches.None? then [] else matches.value, 0)
  }

  lemma TokensColored(code: string, matches: Option<seq<Match>>)
    requires matches.Some? ==> Ordered(matches.value, 0, |code|)
    ensures PiecesShown(Tokens(code, matches)) == Painted(code, matches)
  {
    hide PiecesShown, Ordered;
    if matches.Some? {
      PiecesColored(code, matches.value, 0);
    } else {
      PieceShown(Piece(None, code));
    }
  }

  /** `highlight` highlights: a browser shows the code, every character in a span of the class of its
      match and of no other, and outside the matches in none. */
  lemma HighlightColors(code: string, matches: Option<seq<Match>>)
    requires matches.Some? ==> Ordered(matches.value, 0, |code|)
    ensures Render(WrapAll(Tokens(code, matches)), []) == Painted(code, matches)
  {
    hide Ordered, Shows, WrapAll, PiecesShown, Painted;
    TokensAreTheCode(code, matches);
    WrapAllShows(Tokens(code, matches));
    TokensColored(code, matches);
    Showing(WrapAll(Tokens(code, matches)), Painted(code, matches));
  }

  /** The same laid out in lines: line breaks lie in no span, everything else in that of its line. */
  function Lined(shown: seq<Shown>): seq<Shown> {
    seq(|shown|, i requires 0 <= i < |shown| =>
      Shown(if shown[i].c == '\n' then [] else ["line"] + shown[i].classes, shown[i].c))
  }

  const Break := Shown([], '\n')

  /** Lines with a break between each two. */
  function Broken(parts: seq<seq<Shown>>): seq<Shown>
    requires |parts| >= 1
  {
    if |parts| == 1 then parts[0] else Broken(parts[..|parts| - 1]) + [Break] + parts[|parts| - 1]
  }

  lemma BrokenLast(parts: seq<seq<Shown>>, more: seq<Shown>)
    requires |parts| >= 1
    ensures Broken(parts[..|parts| - 1] + [parts[|parts| - 1] + more]) == Broken(parts) + more
  {
    var n := |parts| - 1;
    var grown := parts[..n] + [parts[n] + more];
    assert grown[n] == parts[n] + more && grown[..n] == parts[..n];
    if n > 0 { Assoc(Broken(parts[..n]) + [Break], parts[n], more); }
  }

  lemma Assoc(a: seq<Shown>, b: seq<Shown>, c: seq<Shown>)
    ensures a + (b + c) == a + b + c
  {
  }

  /** Every line under construction shows its part, inside the span of its line. */
  ghost predicate LinesShow(lines: seq<string>, parts: seq<seq<Shown>>, all: seq<Shown>) {
    && |lines| == |parts| >= 1 && Broken(parts) == Lined(all)
    && forall i :: 0 <= i < |lines| ==> Shows(lines[i], ["line"], parts[i])
  }

  lemma LinedConcat(a: seq<Shown>, b: seq<Shown>)
    ensures Lined(a + b) == Lined(a) + Lined(b)
  {
  }

  lemma LinedPart(classes: seq<string>, part: string)
    requires '\n' !in part
    ensures Lined(In(classes, part)) == In(["line"] + classes, part)
  {
  }

  lemma LinedBreak(classes: seq<string>)
    ensures Lined(In(classes, "\n")) == [Break]
  {
  }

  lemma InConcat(classes: seq<string>, a: string, b: string)
    ensures In(classes, a + b) == In(classes, a) + In(classes, b)
  {
  }

  lemma AddPartShows(lines: seq<string>, kind: Option<string>, part: string, parts: seq<seq<Shown>>, all: seq<Shown>)
      returns (parts': seq<seq<Shown>>)
    requires LinesShow(lines, parts, all) && (kind.Some? ==> Clean(kind.value)) && '\n' !in part
    ensures LinesShow(AddPart(lines, kind, part), parts', all + In(ClassOf(kind), part))
  {
    hide Shows, Wrap, In, Lined, Clean, ClassOf;
    LinedConcat(all, In(ClassOf(kind), part));
    LinedPart(ClassOf(kind), part);
    if part == "" {
      parts' := parts;
      InNothing(ClassOf(kind));
      assert all + [] == all;
    } else {
      var n, more := |lines| - 1, In(["line"] + ClassOf(kind), part);
      WrapShows(Piece(kind, part), ["line"]);
      ShowsConcat(lines[n], Wrap(Piece(kind, part)), ["line"], parts[n], more);
      parts' := parts[..n] + [parts[n] + more];
      BrokenLast(parts, more);
    }
  }

  lemma InNothing(classes: seq<string>)
    ensures In(classes, "") == []
  {
  }

  lemma NewLineShows(lines: seq<string>, parts: seq<seq<Shown>>, all: seq<Shown>, classes: seq<string>)
    requires LinesShow(lines, parts, all)
    ensures LinesShow(lines + [""], parts + [[]], all + In(classes, "\n"))
  {
    hide Shows, In, Lined;
    assert (parts + [[]])[..|parts|] == parts;
    assert Broken(parts + [[]]) == Broken(parts) + [Break] + [];
    ShowsNothing(["line"]);
    LinedConcat(all, In(classes, "\n"));
    LinedBreak(classes);
  }

  lemma {:induction false} AddPartsShow(lines: seq<string>, kind: Option<string>, texts: seq<string>, n: nat,
                                        parts: seq<seq<Shown>>, all: seq<Shown>) returns (parts': seq<seq<Shown>>)
    requires |lines| >= 1 && LinesShow(lines, parts, all) && (kind.Some? ==> Clean(kind.value)) && n <= |texts| &&
             Unbroken(texts)
    ensures LinesShow(AddParts(lines, kind, texts, n), parts',
                      if n == 0 then all else all + In(ClassOf(kind), Join(texts[..n])))
  {
    hide AddPart, LinesShow, Clean, ClassOf, In;
    if n == 0 {
      parts' := parts;
    } else {
      var before, classes := AddParts(lines, kind, texts, n - 1), ClassOf(kind);
      parts' := AddPartsShow(lines, kind, texts, n - 1, parts, all);
      if n == 1 {
        parts' := AddPartShows(before, kind, texts[0], parts', all);
        assert texts[..1] == [texts[0]];
      } else {
        var soFar := Join(texts[..n - 1]);
        NewLineShows(before, parts', all + In(classes, soFar), classes);
        parts' := AddPartShows(before + [""], kind, texts[n - 1], parts' + [[]],
                               all + In(classes, soFar) + In(classes, "\n"));
        assert texts[..n][..n - 1] == texts[..n - 1];
        InConcat(classes, soFar, "\n");
        InConcat(classes, soFar + "\n", texts[n - 1]);
        assert all + In(classes, soFar) + In(classes, "\n") + In(classes, texts[n - 1]) ==
               all + In(classes, soFar + "\n" + texts[n - 1]);
      }
    }
  }

  lemma {:induction false} AddPiecesShow(pieces: seq<Piece>) returns (parts: seq<seq<Shown>>)
    requires CleanKinds(pieces)
    ensures LinesShow(AddPieces(pieces), parts, PiecesShown(pieces))
  {
    hide Shows, Clean, ClassOf, In, Split, Join, AddParts, Unbroken;
    if pieces == [] {
      parts := [[]];
      ShowsNothing(["line"]);
    } else {
      var front, p := pieces[..|pieces| - 1], pieces[|pieces| - 1];
      assert CleanKinds(front);
      parts := AddPiecesShow(front);
      var texts := Split(p.text);
      SplitUnbroken(p.text);
      parts := AddPartsShow(AddPieces(front), p.kind, texts, |texts|, parts, PiecesShown(front));
      assert texts[..|texts|] == texts;
      JoinSplit(p.text);
    }
  }

  lemma LineShows(line: string, part: seq<Shown>)
    requires Shows(line, ["line"], part)
    ensures Shows(LineSpan(line), [], part)
  {
    hide Shows;
    assert [] + ["line"] == ["line"];
    SpanShows("line", line, [], part);
    assert "<span class=\"" + "line" + "\">" == LineOpen;
  }

  lemma BreakShows()
    ensures Shows("\n", [], [Break])
  {
    assert Escape("\n") == "\n" by { assert "\n"[1..] == ""; }
    TextShows("\n", []);
    assert In([], "\n") == [Break];
  }

  lemma {:induction false} SpansShow(lines: seq<string>, parts: seq<seq<Shown>>)
    requires |lines| == |parts| >= 1 && forall i :: 0 <= i < |lines| ==> Shows(lines[i], ["line"], parts[i])
    ensures Shows(Join(Spans(lines)), [], Broken(parts))
    decreases |lines|
  {
    hide Shows, LineSpan;
    var n := |lines| - 1;
    LineShows(lines[n], parts[n]);
    if n > 0 {
      SpansShow(lines[..n], parts[..n]);
      assert Spans(lines)[..n] == Spans(lines[..n]);
      BreakShows();
      ShowsConcat(Join(Spans(lines[..n])), "\n", [], Broken(parts[..n]), [Break]);
      ShowsConcat(Join(Spans(lines[..n])) + "\n", LineSpan(lines[n]), [], Broken(parts[..n]) + [Break], parts[n]);
    }
  }

  /** `highlightLines` too: every character of a line lies in the span of a line and, inside it, in one of
      the class of its match, also where a match runs over several lines; the breaks lie in none. */
  lemma HighlightLinesColors(code: string, matches: Option<seq<Match>>)
    requires matches.Some? ==> Ordered(matches.value, 0, |code|)
    ensures Render(HighlightedLines(code, matches), []) == Lined(Painted(code, matches))
  {
    hide Ordered, Shows, Join, Spans, AddPieces, Broken, PiecesShown, Painted, Lined;
    TokensAreTheCode(code, matches);
    var lines := AddPieces(Tokens(code, matches));
    var parts := AddPiecesShow(Tokens(code, matches));
    SpansShow(lines, parts);
    TokensColored(code, matches);
    Showing(Join(Spans(lines)), Broken(parts));
  }

  // ── the loops of the source ───────────────────────────────────────────────

  /** One turn of the scan: the text before the match, the match, and what is still to come. */
  lemma PiecesStep(code: string, ms: seq<Match>, i: nat, last: nat)
    requires i < |ms| && Ordered(ms[i..], last, |code|)
    ensures var m := ms[i];
            var next := m.start + m.length;
            && last <= m.start <= next <= |code| && Ordered(ms[i + 1..], next, |code|)
            && Pieces(code, ms[i..], last) == PlainPiece(code[last..m.start]) +
               [Piece(Some(m.kind), code[m.start..next])] + Pieces(code, ms[i + 1..], next)
  {
    hide PlainPiece, Clean;
    OrderedBounds(ms[i..], last, |code|);
    assert ms[i..][1..] == ms[i + 1..];
  }

  lemma PiecesEnd(code: string, last: nat)
    requires last <= |code|
    ensures Ordered([], last, |code|) && Pieces(code, [], last) == PlainPiece(code[last..])
  {
  }

  /** `tokenize`. */
  method Tokenize(code: string, matches: Option<seq<Match>>) returns (pieces: seq<Piece>)
    requires matches.Some? ==> Ordered(matches.value, 0, |code|)
    ensures pieces == Tokens(code, matches)
  {
    hide Ordered, Pieces, Clean;
    if matches.None? { return [Piece(None, code)]; }
    var ms := matches.value;
    pieces := [];
    var last: nat, i: nat := 0, 0;
    assert ms[0..] == ms;
    OrderedBounds(ms, 0, |code|);
    while i < |ms|
      invariant i <= |ms| && last <= |code| && Ordered(ms[i..], last, |code|)
      invariant pieces + Pieces(code, ms[i..], last) == Pieces(code, ms, 0)
    {
      var m := ms[i];
      PiecesStep(code, ms, i, last);
      if m.start > last { pieces := pieces + [Piece(None, code[last..m.start])]; }
      pieces := pieces + [Piece(Some(m.kind), code[m.start..m.start + m.length])];
      last := m.start + m.length;
      i := i + 1;
    }
    PiecesEnd(code, last);
    assert ms[i..] == [];
    if last < |code| { pieces := pieces + [Piece(None, code[last..])]; }
  }

  /** `highlight`. */
  method HighlightCode(code: string, matches: Option<seq<Match>>) returns (html: string)
    requires matches.Some? ==> Ordered(matches.value, 0, |code|)
    ensures html == WrapAll(Tokens(code, matches))
  {
    hide Wrap, Tokens, Ordered;
    var pieces := Tokenize(code, matches);
    html := "";
    var i := 0;
    while i < |pieces|
      invariant 0 <= i <= |pieces| && html == WrapAll(pieces[..i])
    {
      assert pieces[..i + 1][..i] == pieces[..i];
      html := html + Wrap(pieces[i]);
      i := i + 1;
    }
    assert pieces[..i] == pieces;
  }

  /** The lines of one token. */
  method AddToken(before: seq<string>, p: Piece) returns (lines: seq<string>)
    requires |before| >= 1
    ensures lines == AddParts(before, p.kind, Split(p.text), |Split(p.text)|)
  {
    hide Wrap, Split;
    var parts := Split(p.text);
    lines := before;
    for k := 0 to |parts|
      invariant |lines| >= 1 && lines == AddParts(before, p.kind, parts, k)
    {
      if k > 0 { lines := lines + [""]; }
      if parts[k] != "" {
        var n := |lines| - 1;
        lines := lines[..n] + [lines[n] + Wrap(Piece(p.kind, parts[k]))];
      }
    }
  }

  /** `highlightLines`. */
  method HighlightLines(code: string, matches: Option<seq<Match>>) returns (html: string)
    requires matches.Some? ==> Ordered(matches.value, 0, |code|)
    ensures html == HighlightedLines(code, matches)
  {
    hide Ordered, Tokens, Split, AddParts, Spans, Join;
    var pieces := Tokenize(code, matches);
    var lines := [""];
    var i := 0;
    while i < |pieces|
      invariant 0 <= i <= |pieces| && lines == AddPieces(pieces[..i])
    {
      assert pieces[..i + 1][..i] == pieces[..i];
      lines := AddToken(lines, pieces[i]);
      i := i + 1;
    }
    assert pieces[..i] == pieces;
    html := Join(Spans(lines));
  }
}
