/**
 * How a POSIX shell (`/bin/sh -c`, which `cp.exec` hands its command string to)
 * splits a command line into arguments. Three kinds of character are given
 * their meaning: a space separates words, single quotes make everything up to
 * the next single quote literal, and a backslash outside quotes makes the next
 * character literal (a backslash that ends the line stays as it is).
 *
 * A line is `Tame` when every character outside quotes and not after a
 * backslash is plain, a space, a quote or a backslash. Only for such lines
 * does `Argv` say what the shell runs: one simple command with the split
 * words, or a syntax error for a quote left open. A line with an operator,
 * expansion, glob, comment or other blank where the shell would act on it is
 * `Unmodelled`.
 */
module ShellWords {
  import opened Wrappers

  /** The splitter's state: the words finished so far, the word being built
      (None between words), inside single quotes, just after a backslash. */
  datatype Lexer = Lexer(words: seq<string>, current: Option<string>, quoted: bool, escaped: bool)

  const Start: Lexer := Lexer([], None, false, false)

  function Partial(l: Lexer): string {
    l.current.GetOr("")
  }

  function Step(l: Lexer, c: char): Lexer {
    if l.escaped then l.(current := Some(Partial(l) + [c]), escaped := false)
    else if l.quoted then
      if c == '\'' then l.(quoted := false) else l.(current := Some(Partial(l) + [c]))
    else if c == ' ' then
      if l.current.Some? then Lexer(l.words + [l.current.value], None, false, false) else l
    else if c == '\'' then l.(current := Some(Partial(l)), quoted := true)
    else if c == '\\' then l.(current := Some(Partial(l)), escaped := true)
    else l.(current := Some(Partial(l) + [c]))
  }

  function Run(l: Lexer, s: string): Lexer
    decreases |s|
  {
    if s == [] then l else Run(Step(l, s[0]), s[1..])
  }

  /** The words at the end of the line; a pending backslash is kept literally. */
  function Finish(l: Lexer): seq<string> {
    if l.current.Some? then l.words + [l.current.value + (if l.escaped then "\\" else "")] else l.words
  }

  /** The words the splitter collects from `s`. */
  function Words(s: string): seq<string> {
    Finish(Run(Start, s))
  }

  /** `s` leaves no quote open and no backslash pending, so that text can follow. */
  predicate Settled(s: string) {
    var l := Run(Start, s);
    !l.quoted && !l.escaped
  }

  /** `s` leaves no quote open. */
  predicate Closed(s: string) {
    !Run(Start, s).quoted
  }

  /** What the shell makes of a line: one simple command with its arguments, a
      syntax error for an unclosed quote, or something this model does not
      interpret. */
  datatype ShellLine = Simple(argv: seq<string>) | Unterminated | Unmodelled

  /** The characters the model interprets where they stand: anything inside
      quotes, anything but a newline after a backslash, and elsewhere plain
      characters, the space, the quote and the backslash. */
  predicate Allowed(l: Lexer, c: char) {
    if l.escaped then c != '\n'
    else if l.quoted then true
    else Plain(c) || c == ' ' || c == '\'' || c == '\\'
  }

  predicate Safe(l: Lexer, s: string)
    decreases |s|
  {
    s == [] || (Allowed(l, s[0]) && Safe(Step(l, s[0]), s[1..]))
  }

  /** Every character of `s` stands where the model interprets it. */
  predicate Tame(s: string) {
    Safe(Start, s)
  }

  /** The shell's reading of `s`. */
  function Argv(s: string): (line: ShellLine)
    ensures line.Unmodelled? <==> !Tame(s)
    ensures line.Unterminated? <==> Tame(s) && !Closed(s)
  {
    if !Tame(s) then Unmodelled else if !Closed(s) then Unterminated else Simple(Words(s))
  }

  /** A character `sh` takes as an ordinary letter wherever it stands: an ASCII
      letter or digit, or one of `-_./=,:@%+`. Blanks, quotes, the backslash and
      every operator, expansion, glob and comment character are not plain. */
  predicate Plain(c: char) {
    || ('a' <= c <= 'z') || ('A' <= c <= 'Z') || ('0' <= c <= '9')
    || c == '-' || c == '_' || c == '.' || c == '/' || c == '='
    || c == ',' || c == ':' || c == '@' || c == '%' || c == '+'
  }

  /** Non-empty and made of plain characters only: one word as it stands. */
  predicate PlainWord(w: string) {
    w != [] && forall c :: c in w ==> Plain(c)
  }

  /** The text of `s` with every single quote written as `'\''`, the usual way to
      put a quote inside a single-quoted word. */
  function Escape(s: string): string {
    if s == [] then [] else (if s[0] == '\'' then "'\\''" else [s[0]]) + Escape(s[1..])
  }

  /** `s` as one single-quoted shell word. */
  function Quote(s: string): string {
    "'" + Escape(s) + "'"
  }

  lemma RunCons(l: Lexer, c: char, s: string)
    ensures Run(l, [c] + s) == Run(Step(l, c), s)
  {
    assert ([c] + s)[1..] == s;
  }

  lemma {:induction false} RunAppend(l: Lexer, a: string, b: string)
    ensures Run(l, a + b) == Run(Run(l, a), b)
    decreases |a|
  {
    if a == [] {
      assert a + b == b;
    } else {
      assert a + b == [a[0]] + (a[1..] + b);
      assert a == [a[0]] + a[1..];
      RunCons(l, a[0], a[1..] + b);
      RunCons(l, a[0], a[1..]);
      RunAppend(Step(l, a[0]), a[1..], b);
    }
  }

  /** The words already finished never influence what comes next: they only
      stay in front. */
  lemma {:induction false} RunKeepsWords(d: seq<string>, c: Option<string>, q: bool, e: bool, s: string)
    ensures Run(Lexer(d, c, q, e), s) == Run(Lexer([], c, q, e), s).(words := d + Run(Lexer([], c, q, e), s).words)
    decreases |s|
  {
    if s != [] {
      var l, l0 := Step(Lexer(d, c, q, e), s[0]), Step(Lexer([], c, q, e), s[0]);
      assert l == Lexer(d + l0.words, l0.current, l0.quoted, l0.escaped);
      assert l0 == Lexer(l0.words, l0.current, l0.quoted, l0.escaped);
      assert Run(Lexer(d, c, q, e), s) == Run(l, s[1..]);
      assert Run(Lexer([], c, q, e), s) == Run(l0, s[1..]);
      var r := Run(Lexer([], l0.current, l0.quoted, l0.escaped), s[1..]);
      RunKeepsWords(d + l0.words, l0.current, l0.quoted, l0.escaped, s[1..]);
      RunKeepsWords(l0.words, l0.current, l0.quoted, l0.escaped, s[1..]);
      assert d + l0.words + r.words == d + (l0.words + r.words);
    }
  }

  lemma SafeCons(l: Lexer, c: char, s: string)
    ensures Safe(l, [c] + s) == (Allowed(l, c) && Safe(Step(l, c), s))
  {
    assert ([c] + s)[1..] == s;
  }

  lemma {:induction false} SafeAppend(l: Lexer, a: string, b: string)
    ensures Safe(l, a + b) == (Safe(l, a) && Safe(Run(l, a), b))
    decreases |a|
  {
    if a == [] {
      assert a + b == b;
    } else {
      assert a + b == [a[0]] + (a[1..] + b);
      assert a == [a[0]] + a[1..];
      SafeCons(l, a[0], a[1..] + b);
      SafeCons(l, a[0], a[1..]);
      RunCons(l, a[0], a[1..]);
      SafeAppend(Step(l, a[0]), a[1..], b);
    }
  }

  /** Whether a text is tame depends only on whether a quote is open and a
      backslash pending, not on the words collected. */
  lemma {:induction false} SafeFlags(l1: Lexer, l2: Lexer, s: string)
    requires l1.quoted == l2.quoted && l1.escaped == l2.escaped
    ensures Safe(l1, s) == Safe(l2, s)
    decreases |s|
  {
    if s != [] {
      var n1, n2 := Step(l1, s[0]), Step(l2, s[0]);
      assert n1.quoted == n2.quoted && n1.escaped == n2.escaped;
      SafeFlags(n1, n2, s[1..]);
    }
  }

  /** Text made only of plain characters, spaces, quotes and backslashes is
      tame from any state. */
  lemma {:induction false} SafeOrdinary(l: Lexer, s: string)
    requires forall c :: c in s ==> Plain(c) || c == ' ' || c == '\'' || c == '\\'
    ensures Safe(l, s)
    decreases |s|
  {
    if s != [] {
      assert s[0] in s;
      assert forall c :: c in s[1..] ==> c in s;
      SafeOrdinary(Step(l, s[0]), s[1..]);
    }
  }

  /** Joining two command fragments with a space concatenates their words,
      provided the first one closes its quotes; the result is tame exactly when
      both fragments are. */
  lemma SpaceJoin(a: string, b: string)
    requires Settled(a)
    ensures Words(a + " " + b) == Words(a) + Words(b)
    ensures Settled(a + " " + b) == Settled(b)
    ensures Closed(a + " " + b) == Closed(b)
    ensures Tame(a + " " + b) == (Tame(a) && Tame(b))
  {
    var la := Run(Start, a);
    RunAppend(Start, a, " " + b);
    assert a + " " + b == a + (" " + b);
    RunCons(la, ' ', b);
    var mid := Lexer(Finish(la), None, false, false);
    assert la.current.Some? ==> la.current.value + "" == la.current.value;
    assert Step(la, ' ') == mid;
    RunKeepsWords(Finish(la), None, false, false, b);
    var lb := Run(Start, b);
    assert Run(mid, b) == lb.(words := Finish(la) + lb.words);
    SafeAppend(Start, a, " " + b);
    SafeCons(la, ' ', b);
    SafeFlags(mid, Start, b);
  }

  lemma {:induction false} RunPlain(d: seq<string>, p: string, w: string)
    requires forall c :: c in w ==> Plain(c)
    ensures Run(Lexer(d, Some(p), false, false), w) == Lexer(d, Some(p + w), false, false)
    decreases |w|
  {
    if w == [] {
      assert p + w == p;
    } else {
      assert w == [w[0]] + w[1..];
      assert w[0] in w;
      assert Step(Lexer(d, Some(p), false, false), w[0]) == Lexer(d, Some(p + [w[0]]), false, false);
      RunCons(Lexer(d, Some(p), false, false), w[0], w[1..]);
      assert forall c :: c in w[1..] ==> c in w;
      RunPlain(d, p + [w[0]], w[1..]);
      assert p + [w[0]] + w[1..] == p + w;
    }
  }

  /** A plain word is one argument, unchanged. */
  lemma PlainWordIsOneWord(w: string)
    requires PlainWord(w)
    ensures Words(w) == [w] && Settled(w) && Tame(w)
  {
    SafeOrdinary(Start, w);
    assert w == [w[0]] + w[1..];
    assert w[0] in w;
    assert Plain(w[0]) && Partial(Start) == "";
    assert "" + [w[0]] == [w[0]];
    assert Step(Start, w[0]) == Lexer([], Some([w[0]]), false, false);
    RunCons(Start, w[0], w[1..]);
    assert forall c :: c in w[1..] ==> c in w;
    RunPlain([], [w[0]], w[1..]);
    assert [w[0]] + w[1..] == w;
    assert w + "" == w;
  }

  lemma EmptyHasNoWords()
    ensures Words("") == [] && Settled("") && Tame("")
  {
  }

  /** Inside quotes, `'\''` closes the quote, adds a literal quote and reopens. */
  lemma RunQuotedQuote(d: seq<string>, p: string)
    ensures Run(Lexer(d, Some(p), true, false), "'\\''") == Lexer(d, Some(p + "'"), true, false)
  {
    assert "'\\''" == ['\''] + (['\\'] + (['\''] + (['\''] + [])));
    RunCons(Lexer(d, Some(p), true, false), '\'', ['\\'] + (['\''] + (['\''] + [])));
    RunCons(Lexer(d, Some(p), false, false), '\\', ['\''] + (['\''] + []));
    RunCons(Lexer(d, Some(p), false, true), '\'', ['\''] + []);
    RunCons(Lexer(d, Some(p + "'"), false, false), '\'', []);
  }

  lemma {:induction false} RunEscaped(d: seq<string>, p: string, s: string)
    ensures Run(Lexer(d, Some(p), true, false), Escape(s)) == Lexer(d, Some(p + s), true, false)
    decreases |s|
  {
    if s == [] {
      assert p + s == p;
    } else {
      var l := Lexer(d, Some(p), true, false);
      var head := if s[0] == '\'' then "'\\''" else [s[0]];
      assert Escape(s) == head + Escape(s[1..]);
      RunAppend(l, head, Escape(s[1..]));
      if s[0] == '\'' {
        RunQuotedQuote(d, p);
        assert p + "'" == p + [s[0]];
      } else {
        assert head == [s[0]] + [];
        RunCons(l, s[0], []);
      }
      assert Run(l, head) == Lexer(d, Some(p + [s[0]]), true, false);
      RunEscaped(d, p + [s[0]], s[1..]);
      assert p + [s[0]] + s[1..] == p + s;
    }
  }

  /** Inside quotes, text without a quote is taken literally and the quote stays open. */
  lemma {:induction false} RunQuotedNoQuote(d: seq<string>, p: string, s: string)
    requires forall c :: c in s ==> c != '\''
    ensures Run(Lexer(d, Some(p), true, false), s) == Lexer(d, Some(p + s), true, false)
    ensures Safe(Lexer(d, Some(p), true, false), s)
    decreases |s|
  {
    if s == [] {
      assert p + s == p;
    } else {
      assert s == [s[0]] + s[1..];
      assert s[0] in s;
      RunCons(Lexer(d, Some(p), true, false), s[0], s[1..]);
      SafeCons(Lexer(d, Some(p), true, false), s[0], s[1..]);
      assert forall c :: c in s[1..] ==> c in s;
      RunQuotedNoQuote(d, p + [s[0]], s[1..]);
      assert p + [s[0]] + s[1..] == p + s;
    }
  }

  /** A quote opened in settled text and never closed makes the line a syntax error. */
  lemma UnclosedQuote(a: string, s: string)
    requires Settled(a) && Tame(a)
    requires forall c :: c in s ==> c != '\''
    ensures Argv(a + "'" + s) == Unterminated
  {
    var l := Run(Start, a);
    assert a + "'" + s == a + (['\''] + s);
    RunAppend(Start, a, ['\''] + s);
    RunCons(l, '\'', s);
    SafeAppend(Start, a, ['\''] + s);
    SafeCons(l, '\'', s);
    assert Step(l, '\'') == Lexer(l.words, Some(Partial(l)), true, false);
    RunQuotedNoQuote(l.words, Partial(l), s);
  }

  /** Any text, quoted, reaches the program as exactly one argument, unchanged. */
  lemma QuoteIsOneWord(s: string)
    ensures Words(Quote(s)) == [s] && Settled(Quote(s))
  {
    var inQuote := Lexer([], Some(""), true, false);
    RunCons(Start, '\'', Escape(s) + "'");
    assert Quote(s) == ['\''] + (Escape(s) + "'");
    RunAppend(inQuote, Escape(s), "'");
    RunEscaped([], "", s);
    assert "" + s == s;
    RunCons(Lexer([], Some(s), true, false), '\'', []);
    assert "'" == ['\''] + [];
    assert s + "" == s;
  }

  /** Inside quotes, `'\''` is read by the model character by character. */
  lemma SafeQuotedQuote(d: seq<string>, p: string)
    ensures Safe(Lexer(d, Some(p), true, false), "'\\''")
  {
    assert "'\\''" == ['\''] + (['\\'] + (['\''] + (['\''] + [])));
    SafeCons(Lexer(d, Some(p), true, false), '\'', ['\\'] + (['\''] + (['\''] + [])));
    SafeCons(Lexer(d, Some(p), false, false), '\\', ['\''] + (['\''] + []));
    SafeCons(Lexer(d, Some(p), false, true), '\'', ['\''] + []);
    SafeCons(Lexer(d, Some(p + "'"), false, false), '\'', []);
  }

  lemma {:induction false} SafeEscaped(d: seq<string>, p: string, s: string)
    ensures Safe(Lexer(d, Some(p), true, false), Escape(s))
    decreases |s|
  {
    if s != [] {
      var l := Lexer(d, Some(p), true, false);
      var head := if s[0] == '\'' then "'\\''" else [s[0]];
      assert Escape(s) == head + Escape(s[1..]);
      SafeAppend(l, head, Escape(s[1..]));
      RunAppend(l, head, Escape(s[1..]));
      if s[0] == '\'' {
        SafeQuotedQuote(d, p);
        RunQuotedQuote(d, p);
        assert p + "'" == p + [s[0]];
      } else {
        assert head == [s[0]] + [];
        SafeCons(l, s[0], []);
        RunCons(l, s[0], []);
      }
      assert Run(l, head) == Lexer(d, Some(p + [s[0]]), true, false);
      SafeEscaped(d, p + [s[0]], s[1..]);
    }
  }

  /** A quoted text is tame whatever it holds. */
  lemma QuoteIsTame(s: string)
    ensures Tame(Quote(s))
  {
    var inQuote := Lexer([], Some(""), true, false);
    assert Quote(s) == ['\''] + (Escape(s) + "'");
    SafeCons(Start, '\'', Escape(s) + "'");
    SafeAppend(inQuote, Escape(s), "'");
    SafeEscaped([], "", s);
    RunEscaped([], "", s);
    assert "" + s == s;
    assert "'" == ['\''] + [];
    SafeCons(Lexer([], Some(s), true, false), '\'', []);
  }
}
