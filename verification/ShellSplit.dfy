/** Splitting a pasted command into fields (`split` in internal/importer/curl.go), after the quoting
    rules of the POSIX Shell Command Language, section 2.2.  */
module ShellSplit {
  import opened Basics

  datatype Quote = Unquoted | Single | Double

  datatype Result = Fields(fields: seq<string>) | NeverCloses | NoCommand

  /** Fields so far, the field being read, whether there is one, and the quotes it is in. */
  datatype State = State(fields: seq<string>, current: string, has: bool, quote: Quote)

  const Start := State([], "", false, Unquoted)

  function Written(s: State, c: char): State { s.(current := s.current + [c], has := true) }

  function Ended(s: State): State {
    if s.has then s.(fields := s.fields + [s.current], current := "", has := false) else s
  }

  function QuoteChar(q: Quote): char { if q == Single then '\'' else '\"' }

  /** One character, or a backslash with the one it escapes: how many are taken and what follows. */
  function Taken(s: State, text: string): (int, State)
    requires text != []
  {
    var c := text[0];
    if c == '\\' && s.quote != Single then
      if |text| > 1 && text[1] == '\n' then (2, s)
      else if |text| > 1 && (s.quote == Unquoted || text[1] == '\"' || text[1] == '\\') then (2, Written(s, text[1]))
      else (1, Written(s, c))
    else if s.quote != Unquoted then
      if c == QuoteChar(s.quote) then (1, s.(quote := Unquoted)) else (1, Written(s, c))
    else if c == '\'' then (1, s.(quote := Single, has := true))
    else if c == '\"' then (1, s.(quote := Double, has := true))
    else if IsSpace(c) then (1, Ended(s))
    else (1, Written(s, c))
  }

  function Scanned(s: State, text: string): State
    decreases |text|
  {
    if text == [] then s else Scanned(Taken(s, text).1, text[Taken(s, text).0..])
  }

  function Finished(s: State): Result {
    if s.quote != Unquoted then NeverCloses
    else if Ended(s).fields == [] then NoCommand
    else Fields(Ended(s).fields)
  }

  function SplitOf(command: string): Result { Finished(Scanned(Start, command)) }

  method Split(command: string) returns (r: Result)
    ensures r == SplitOf(command)
  {
    var fields: seq<string>, current, has, quote := [], "", false, Unquoted;
    var index := 0;
    while index < |command|
      invariant 0 <= index <= |command|
      invariant Scanned(Start, command) == Scanned(State(fields, current, has, quote), command[index..])
    {
      var c := command[index];
      ghost var before := State(fields, current, has, quote);
      ghost var rest := command[index..];
      assert rest[0] == c && (index + 1 < |command| ==> rest[1] == command[index + 1]);
      var next := index + 1;
      if c == '\\' && quote != Single {
        if index + 1 < |command| && command[index + 1] == '\n' {
          next := index + 2;
        } else if index + 1 < |command| && quote == Unquoted {
          current, has, next := current + [command[index + 1]], true, index + 2;
        } else if index + 1 < |command| && (command[index + 1] == '\"' || command[index + 1] == '\\') {
          current, has, next := current + [command[index + 1]], true, index + 2;
        } else {
          current, has := current + [c], true;
        }
      } else if quote != Unquoted {
        if c == QuoteChar(quote) {
          quote := Unquoted;
        } else {
          current, has := current + [c], true;
        }
      } else if c == '\'' || c == '\"' {
        quote, has := if c == '\'' then Single else Double, true;
      } else if IsSpace(c) {
        if has {
          fields, current, has := fields + [current], "", false;
        }
      } else {
        current, has := current + [c], true;
      }
      assert Taken(before, rest) == (next - index, State(fields, current, has, quote));
      assert rest[next - index..] == command[next..];
      index := next;
    }
    if quote != Unquoted {
      return NeverCloses;
    }
    if has {
      fields := fields + [current];
    }
    if |fields| == 0 {
      return NoCommand;
    }
    r := Fields(fields);
  }

  // ----- Quoting -----

  /** Between single quotes, between double quotes, or with every character escaped. */
  datatype Style = InSingle | InDouble | Bare

  /** An empty field needs quotes, and a line break cannot be escaped. */
  predicate CanWrite(field: string, style: Style) { style == Bare ==> field != "" && '\n' !in field }

  /** How one character of a field is written. */
  function WrittenChar(c: char, style: Style): string {
    match style
    case InSingle => if c == '\'' then "'\\''" else [c]
    case InDouble => if c == '\"' || c == '\\' then "\\" + [c] else [c]
    case Bare => "\\" + [c]
  }

  function WrittenChars(field: string, style: Style): string {
    if field == [] then "" else WrittenChar(field[0], style) + WrittenChars(field[1..], style)
  }

  function Delimiter(style: Style): string {
    match style
    case InSingle => "'"
    case InDouble => "\""
    case Bare => ""
  }

  function Quoted(field: string, style: Style): string {
    Delimiter(style) + WrittenChars(field, style) + Delimiter(style)
  }

  /** Blanks and continued lines. */
  predicate IsGap(gap: string)
    decreases |gap|
  {
    || gap == []
    || (IsSpace(gap[0]) && IsGap(gap[1..]))
    || (gap[0] == '\\' && |gap| > 1 && gap[1] == '\n' && IsGap(gap[2..]))
  }

  /** A gap of continued lines alone does not separate anything. */
  predicate Separates(gap: string)
    requires IsGap(gap)
    decreases |gap|
  {
    gap != [] && (IsSpace(gap[0]) || Separates(gap[2..]))
  }

  function Command(fields: seq<string>, styles: seq<Style>, gap: string): string
    requires |fields| == |styles|
  {
    if fields == [] then ""
    else if |fields| == 1 then Quoted(fields[0], styles[0])
    else Quoted(fields[0], styles[0]) + gap + Command(fields[1..], styles[1..], gap)
  }

  /** One step of the scan. */
  lemma Step(s: State, text: string, n: int, t: State)
    requires text != [] && Taken(s, text) == (n, t)
    ensures Scanned(s, text) == Scanned(t, text[n..])
  {
  }

  /** Which quotes a field in this style is read in. */
  function QuoteOf(style: Style): Quote {
    match style
    case InSingle => Single
    case InDouble => Double
    case Bare => Unquoted
  }

  /** A character is read back as it was. */
  lemma ReadsBackChar(s: State, c: char, style: Style, more: string)
    requires s.quote == QuoteOf(style) && (style != Bare ==> s.has) && (style == Bare ==> c != '\n')
    ensures Scanned(s, WrittenChar(c, style) + more) == Scanned(Written(s, c), more)
  {
    hide Scanned;
    var text := WrittenChar(c, style) + more;
    if style == InSingle && c == '\'' {
      InnerQuote(s, more);
    } else if |WrittenChar(c, style)| == 2 {
      assert text[0] == '\\' && text[1] == c;
      Step(s, text, 2, Written(s, c));
      assert text[2..] == more;
    } else {
      assert text == [c] + more;
      Step(s, text, 1, Written(s, c));
      assert text[1..] == more;
    }
  }

  lemma InnerQuote(s: State, more: string)
    requires s.quote == Single && s.has
    ensures Scanned(s, "'\\''" + more) == Scanned(Written(s, '\''), more)
  {
    hide Scanned;
    var text := "'\\''" + more;
    var closed := s.(quote := Unquoted);
    Step(s, text, 1, closed);
    assert text[1..] == "\\''" + more;
    Step(closed, text[1..], 2, Written(closed, '\''));
    assert text[1..][2..] == "'" + more;
    Step(Written(closed, '\''), "'" + more, 1, Written(s, '\''));
    assert ("'" + more)[1..] == more;
  }

  /** Whatever the style, the characters of a field are read back as they were. */
  lemma {:induction false} ReadsBackInside(s: State, field: string, style: Style, rest: string)
    requires s.quote == QuoteOf(style) && (style != Bare ==> s.has) && (style == Bare ==> '\n' !in field)
    ensures Scanned(s, WrittenChars(field, style) + rest)
         == Scanned(s.(current := s.current + field, has := s.has || field != ""), rest)
    decreases |field|
  {
    hide Scanned;
    if field == [] {
      assert WrittenChars(field, style) + rest == rest && s.current + field == s.current;
    } else {
      var c, more := field[0], WrittenChars(field[1..], style) + rest;
      assert s.current + field == s.current + [c] + field[1..];
      assert WrittenChars(field, style) + rest == WrittenChar(c, style) + more;
      ReadsBackChar(s, c, style, more);
      ReadsBackInside(Written(s, c), field[1..], style, rest);
    }
  }

  lemma ReadsBack(s: State, field: string, style: Style, rest: string)
    requires s.quote == Unquoted && s.current == "" && !s.has && CanWrite(field, style)
    ensures Scanned(s, Quoted(field, style) + rest) == Scanned(s.(current := field, has := true), rest)
  {
    hide Scanned;
    var text, chars := Quoted(field, style) + rest, WrittenChars(field, style);
    assert "" + field == field;
    if style == Bare {
      assert text == chars + rest;
      ReadsBackInside(s, field, style, rest);
    } else {
      var inside, ending := s.(quote := QuoteOf(style), has := true), Delimiter(style) + rest;
      Step(s, text, 1, inside);
      assert text[1..] == chars + ending;
      ReadsBackInside(inside, field, style, ending);
      var read := inside.(current := field);
      Step(read, ending, 1, read.(quote := Unquoted));
      assert ending[1..] == rest;
    }
  }

  /** A gap ends the field before it, unless it is nothing but continued lines. */
  lemma {:induction false} GapEnds(s: State, gap: string, rest: string)
    requires s.quote == Unquoted && IsGap(gap)
    ensures Scanned(s, gap + rest) == Scanned(if Separates(gap) then Ended(s) else s, rest)
    decreases |gap|
  {
    hide Scanned;
    var text := gap + rest;
    if gap == [] {
      assert text == rest;
    } else if IsSpace(gap[0]) {
      Step(s, text, 1, Ended(s));
      assert text[1..] == gap[1..] + rest;
      GapEnds(Ended(s), gap[1..], rest);
      assert Ended(Ended(s)) == Ended(s);
    } else {
      Step(s, text, 2, s);
      assert text[2..] == gap[2..] + rest;
      GapEnds(s, gap[2..], rest);
    }
  }

  lemma {:induction false} ReadsBackAll(s: State, fields: seq<string>, styles: seq<Style>, gap: string)
    requires s.quote == Unquoted && s.current == "" && !s.has && fields != []
    requires |fields| == |styles| && IsGap(gap) && Separates(gap)
    requires forall k :: 0 <= k < |fields| ==> CanWrite(fields[k], styles[k])
    ensures Finished(Scanned(s, Command(fields, styles, gap))) == Fields(s.fields + fields)
    decreases |fields|
  {
    hide Scanned, Quoted;
    var t := s.(current := fields[0], has := true);
    if |fields| == 1 {
      assert Quoted(fields[0], styles[0]) + "" == Command(fields, styles, gap);
      ReadsBack(s, fields[0], styles[0], "");
      NothingLeft(t);
      assert s.fields + [fields[0]] == s.fields + fields;
    } else {
      var more := Command(fields[1..], styles[1..], gap);
      assert Quoted(fields[0], styles[0]) + (gap + more) == Command(fields, styles, gap);
      ReadsBack(s, fields[0], styles[0], gap + more);
      GapEnds(t, gap, more);
      ReadsBackAll(Ended(t), fields[1..], styles[1..], gap);
      assert s.fields + [fields[0]] + fields[1..] == s.fields + fields;
    }
  }

  lemma NothingLeft(s: State)
    ensures Scanned(s, "") == s
  {
  }

  /** The tokenizer undoes shell quoting, for every non-empty list of fields: each in single quotes, in
      double quotes or escaped throughout, empty fields, spaces, quotes and backslashes included, and
      with any blanks and continued lines in between. */
  lemma {:induction false} SplitUndoesQuoting(fields: seq<string>, styles: seq<Style>, gap: string)
    requires fields != [] && |fields| == |styles| && IsGap(gap) && Separates(gap)
    requires forall k :: 0 <= k < |fields| ==> CanWrite(fields[k], styles[k])
    ensures SplitOf(Command(fields, styles, gap)) == Fields(fields)
  {
    ReadsBackAll(Start, fields, styles, gap);
    assert [] + fields == fields;
  }

  /** In double quotes, and outside quotes, a continued line is no line break at all; other escapes
      double quotes do not know keep their backslash. */
  lemma {:induction false} EscapesOfDoubleQuotes(s: State, c: char, rest: string)
    requires s.quote == Double
    ensures Scanned(s, "\\\n" + rest) == Scanned(s, rest)
    ensures c != '\n' && c != '\"' && c != '\\' ==>
              Scanned(s, "\\" + [c] + rest) == Scanned(Written(Written(s, '\\'), c), rest)
  {
    hide Scanned;
    var continued, kept := "\\\n" + rest, "\\" + [c] + rest;
    Step(s, continued, 2, s);
    assert continued[2..] == rest;
    if c != '\n' && c != '\"' && c != '\\' {
      Step(s, kept, 1, Written(s, '\\'));
      assert kept[1..] == [c] + rest;
      Step(Written(s, '\\'), [c] + rest, 1, Written(Written(s, '\\'), c));
      assert ([c] + rest)[1..] == rest;
    }
  }

  /** A quote that is never closed is reported, and so is a command of nothing but blanks. */
  lemma {:induction false} SplitReportsErrors(field: string, gap: string)
    requires IsGap(gap)
    ensures SplitOf("'" + WrittenChars(field, InSingle)) == NeverCloses
    ensures SplitOf("\"" + WrittenChars(field, InDouble)) == NeverCloses
    ensures SplitOf(gap) == NoCommand
  {
    hide Scanned;
    OpenQuote(field, InSingle);
    OpenQuote(field, InDouble);
    GapEnds(Start, gap, "");
    assert gap + "" == gap;
    NothingLeft(Start);
  }

  lemma OpenQuote(field: string, style: Style)
    requires style != Bare
    ensures SplitOf(Delimiter(style) + WrittenChars(field, style)) == NeverCloses
  {
    hide Scanned;
    var text, chars := Delimiter(style) + WrittenChars(field, style), WrittenChars(field, style);
    var inside := Start.(quote := QuoteOf(style), has := true);
    Step(Start, text, 1, inside);
    assert text[1..] == chars == chars + "";
    ReadsBackInside(inside, field, style, "");
    NothingLeft(inside.(current := inside.current + field));
  }
}
