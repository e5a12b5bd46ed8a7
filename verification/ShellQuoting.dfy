/** The command line handed to ssh, and the words a POSIX shell reads back from it. */
module ShellQuoting {
  import opened Options

  const SPECIAL := " \t\n'\"\\$`&|;<>()*?[]#~"

  predicate ContainsAny(s: string, chars: string) {
    exists i :: 0 <= i < |s| && s[i] in chars
  }

  /** Every single quote closes the quotation, stands escaped, and opens it again. */
  function Escape(s: string): string {
    if s == "" then ""
    else (if s[0] == '\'' then "'\\''" else [s[0]]) + Escape(s[1..])
  }

  function ShellQuote(s: string): string {
    if s == "" then "''"
    else if !ContainsAny(s, SPECIAL) then s
    else "'" + Escape(s) + "'"
  }

  function QuoteAll(words: seq<string>): seq<string> {
    seq(|words|, i requires 0 <= i < |words| => ShellQuote(words[i]))
  }

  /** Pieces with one blank between them. */
  function Join(pieces: seq<string>): string {
    if pieces == [] then ""
    else if |pieces| == 1 then pieces[0]
    else pieces[0] + " " + Join(pieces[1..])
  }

  // ------------------------------------------------------------------
  // The shell's side: sections 2.2 and 2.3 of the POSIX.1-2017 Shell Command Language

  datatype Mode = Plain | Single | Double

  /** Characters that, unquoted, make more of the input than words: operators, expansions, patterns. */
  const ACTIVE := "\n$`&|;<>()*?["

  /** Characters that act only where a word would begin: a comment, a home directory. */
  const LEADING := "#~"

  function Text(w: Option<string>): string {
    if w.None? then "" else w.value
  }

  function Finish(w: Option<string>, done: seq<string>): seq<string> {
    if w.None? then done else done + [w.value]
  }

  /** What is left to read, the word being read and the words before it. */
  datatype Reader = Reader(rest: string, mode: Mode, word: Option<string>, done: seq<string>)

  function Extend(r: Reader, rest: string, c: char): Reader {
    r.(rest := rest, word := Some(Text(r.word) + [c]))
  }

  /** One token step, or None when the shell would do anything but remove quotes and split at blanks. */
  function Step(r: Reader): (next: Option<Reader>)
    requires r.rest != ""
    ensures next.Some? ==> |next.value.rest| < |r.rest|
  {
    var c, rest := r.rest[0], r.rest[1..];
    match r.mode
    case Single => Some(if c == '\'' then r.(rest := rest, mode := Plain) else Extend(r, rest, c))
    case Double =>
      if c == '"' then Some(r.(rest := rest, mode := Plain))
      else if c in "$`" then None
      else if c == '\\' && rest != "" && rest[0] == '\n' then Some(r.(rest := rest[1..]))
      else if c == '\\' && rest != "" && rest[0] in "$`\"\\" then Some(Extend(r, rest[1..], rest[0]))
      else Some(Extend(r, rest, c))
    case Plain =>
      if c in " \t" then Some(Reader(rest, Plain, None, Finish(r.word, r.done)))
      else if c == '\'' then Some(Reader(rest, Single, Some(Text(r.word)), r.done))
      else if c == '"' then Some(Reader(rest, Double, Some(Text(r.word)), r.done))
      else if c == '\\' then
        if rest == "" then None
        else if rest[0] == '\n' then Some(r.(rest := rest[1..]))
        else Some(Extend(r, rest[1..], rest[0]))
      else if c in ACTIVE || (c in LEADING && r.word.None?) then None
      else Some(Extend(r, rest, c))
  }

  function Read(r: Reader): Option<seq<string>>
    decreases |r.rest|
  {
    if r.rest == "" then
      if r.mode.Plain? then Some(Finish(r.word, r.done)) else None
    else
      var next := Step(r);
      if next.None? then None else Read(next.value)
  }

  function Lex(s: string, mode: Mode, w: Option<string>, done: seq<string>): Option<seq<string>> {
    Read(Reader(s, mode, w, done))
  }

  function Split(s: string): Option<seq<string>> {
    Lex(s, Plain, None, [])
  }

  // ------------------------------------------------------------------
  // Round trip

  /** Ordinary characters extend the current word. */
  lemma {:induction false} LexOrdinary(s: string, rest: string, w: Option<string>, done: seq<string>)
    requires !ContainsAny(s, SPECIAL) && (s != "" || w.Some?)
    ensures Lex(s + rest, Plain, w, done) == Lex(rest, Plain, Some(Text(w) + s), done)
  {
    if s == "" {
      assert s + rest == rest && Text(w) + s == Text(w);
    } else {
      assert (s + rest)[0] == s[0] && (s + rest)[1..] == s[1..] + rest;
      var v := Some(Text(w) + [s[0]]);
      assert s[0] !in SPECIAL;
      assert !ContainsAny(s[1..], SPECIAL) by {
        assert forall i :: 0 <= i < |s| - 1 ==> s[1..][i] == s[i + 1];
      }
      LexOrdinary(s[1..], rest, v, done);
      assert Text(v) + s[1..] == Text(w) + s;
    }
  }

  /** Inside single quotes the escaped text reads as the text itself. */
  lemma {:induction false} LexEscaped(s: string, rest: string, w: string, done: seq<string>)
    ensures Lex(Escape(s) + "'" + rest, Single, Some(w), done) == Lex(rest, Plain, Some(w + s), done)
  {
    hide Read, Step;
    var all := Escape(s) + "'" + rest;
    if s == "" {
      LexQuoteEnds(rest, w, done);
      assert all == "'" + rest && w + s == w;
    } else {
      var tail := Escape(s[1..]) + "'" + rest;
      LexEscaped(s[1..], rest, w + [s[0]], done);
      assert w + [s[0]] + s[1..] == w + s;
      if s[0] == '\'' {
        LexEscapedQuote(tail, w, done);
        assert all == "'\\''" + tail;
      } else {
        LexInQuotes(s[0], tail, w, done);
        assert all == [s[0]] + tail;
      }
    }
  }

  lemma LexQuoteEnds(rest: string, w: string, done: seq<string>)
    ensures Lex("'" + rest, Single, Some(w), done) == Lex(rest, Plain, Some(w), done)
  {
    assert ("'" + rest)[0] == '\'' && ("'" + rest)[1..] == rest;
  }

  lemma LexInQuotes(c: char, rest: string, w: string, done: seq<string>)
    requires c != '\''
    ensures Lex([c] + rest, Single, Some(w), done) == Lex(rest, Single, Some(w + [c]), done)
  {
    assert ([c] + rest)[0] == c && ([c] + rest)[1..] == rest;
  }

  lemma LexEscapedQuote(tail: string, w: string, done: seq<string>)
    ensures Lex("'\\''" + tail, Single, Some(w), done) == Lex(tail, Single, Some(w + "'"), done)
  {
    var a, b, d := "'\\''" + tail, "\\''" + tail, "'" + tail;
    assert a[0] == '\'' && a[1..] == b;
    assert b[0] == '\\' && b[1..][0] == '\'' && b[1..][1..] == d;
    assert d[0] == '\'' && d[1..] == tail;
    assert Lex(a, Single, Some(w), done) == Lex(b, Plain, Some(w), done);
    assert Lex(b, Plain, Some(w), done) == Lex(d, Plain, Some(w + ['\'']), done);
  }

  /** One quoted word, whatever follows. */
  lemma {:induction false} LexQuoted(s: string, rest: string, done: seq<string>)
    ensures Lex(ShellQuote(s) + rest, Plain, None, done) == Lex(rest, Plain, Some(s), done)
  {
    var q := ShellQuote(s) + rest;
    if s != "" && !ContainsAny(s, SPECIAL) {
      LexOrdinary(s, rest, None, done);
      assert "" + s == s;
    } else {
      var body := Escape(s) + "'" + rest;
      assert q == "'" + body;
      assert q[0] == '\'' && q[1..] == body;
      LexEscaped(s, rest, "", done);
      assert "" + s == s;
    }
  }

  lemma LexEnd(w: string, done: seq<string>)
    ensures Lex("", Plain, Some(w), done) == Some(done + [w])
  {
  }

  lemma LexBlank(rest: string, w: string, done: seq<string>)
    ensures Lex(" " + rest, Plain, Some(w), done) == Lex(rest, Plain, None, done + [w])
  {
    assert (" " + rest)[0] == ' ' && (" " + rest)[1..] == rest;
  }

  lemma {:induction false} LexJoined(words: seq<string>, done: seq<string>)
    requires words != []
    ensures Lex(Join(QuoteAll(words)), Plain, None, done) == Some(done + words)
  {
    hide Read, ShellQuote, Step;
    var qs := QuoteAll(words);
    if |words| == 1 {
      LexQuoted(words[0], "", done);
      LexEnd(words[0], done);
      assert ShellQuote(words[0]) + "" == Join(qs) && words == [words[0]];
    } else {
      assert qs[1..] == QuoteAll(words[1..]);
      var rest := " " + Join(qs[1..]);
      assert Join(qs) == ShellQuote(words[0]) + rest;
      LexQuoted(words[0], rest, done);
      LexBlank(Join(qs[1..]), words[0], done);
      LexJoined(words[1..], done + [words[0]]);
      assert done + [words[0]] + words[1..] == done + words;
    }
  }

  /** The shell reads back exactly the words that were quoted, empty words and quotes included. */
  lemma {:induction false} QuotingRoundTrip(words: seq<string>)
    requires words != []
    ensures Split(Join(QuoteAll(words))) == Some(words)
  {
    LexJoined(words, []);
    assert [] + words == words;
  }

  /** So different commands have different command lines. */
  lemma {:induction false} CommandLineIsInjective(words: seq<string>, others: seq<string>)
    requires words != [] && others != [] && Join(QuoteAll(words)) == Join(QuoteAll(others))
    ensures words == others
  {
    QuotingRoundTrip(words);
    QuotingRoundTrip(others);
  }

  // ------------------------------------------------------------------
  // Which words need quotes at all

  function Length(words: seq<string>): nat {
    if words == [] then 0 else Length(words[..|words| - 1]) + |words[|words| - 1]|
  }

  lemma LengthOfFinish(w: Option<string>, done: seq<string>)
    ensures Length(Finish(w, done)) == Length(done) + |Text(w)|
  {
    if w.Some? {
      assert (done + [w.value])[..|done|] == done;
    }
  }

  /** The text a reader holds, read or not. */
  function Volume(r: Reader): nat {
    Length(r.done) + |Text(r.word)| + |r.rest|
  }

  lemma {:induction false} StepNeverGrows(r: Reader)
    requires r.rest != ""
    ensures Step(r).Some? ==> Volume(Step(r).value) <= Volume(r)
  {
    hide Length;
    LengthOfFinish(r.word, r.done);
  }

  /** Reading words never makes text. */
  lemma {:induction false} ReadNeverGrows(r: Reader)
    ensures Read(r).Some? ==> Length(Read(r).value) <= Volume(r)
    decreases |r.rest|
  {
    hide Step, Finish, Length;
    if r.rest == "" {
      LengthOfFinish(r.word, r.done);
    } else if Step(r).Some? {
      StepNeverGrows(r);
      ReadNeverGrows(Step(r).value);
    }
  }

  /** Characters that never stand for themselves outside quotes. */
  const HARD := " \t\n'\"\\$`&|;<>()*?["

  lemma {:induction false} HardStepShrinks(r: Reader)
    requires r.mode.Plain? && r.rest != "" && Step(r).Some?
    requires r.rest[0] in " \t'\"\\"
    ensures Volume(Step(r).value) < Volume(r)
  {
    hide Length, Finish;
    LengthOfFinish(r.word, r.done);
  }

  lemma {:induction false} PlainStep(r: Reader)
    requires r.mode.Plain? && r.rest != "" && Step(r).Some?
    ensures r.rest[0] in " \t'\"\\" || (r.rest[0] !in HARD && Step(r).value == Extend(r, r.rest[1..], r.rest[0]))
  {
    hide Finish, Text;
    assert forall c <- HARD :: c in " \t'\"\\" || c in ACTIVE;
  }

  /** A hard character outside quotes ends the reading or costs at least one character. */
  lemma {:induction false} HardCharacterIsLost(r: Reader)
    requires r.mode.Plain? && ContainsAny(r.rest, HARD)
    ensures Read(r).Some? ==> Length(Read(r).value) < Volume(r)
    decreases |r.rest|
  {
    hide Step, Finish, Length;
    if Step(r).Some? {
      PlainStep(r);
      var next := Step(r).value;
      if r.rest[0] in " \t'\"\\" {
        HardStepShrinks(r);
        ReadNeverGrows(next);
      } else {
        var i :| 0 <= i < |r.rest| && r.rest[i] in HARD;
        assert next.rest[i - 1] in HARD;
        HardCharacterIsLost(next);
      }
    }
  }

  /** Characters that stand for themselves extend a word that has begun. */
  lemma {:induction false} LexSoft(s: string, w: string, done: seq<string>)
    requires !ContainsAny(s, HARD)
    ensures Lex(s, Plain, Some(w), done) == Some(done + [w + s])
  {
    if s == "" {
      assert w + s == w;
    } else {
      assert s[0] !in HARD;
      assert !ContainsAny(s[1..], HARD) by {
        assert forall i :: 0 <= i < |s| - 1 ==> s[1..][i] == s[i + 1];
      }
      LexSoft(s[1..], w + [s[0]], done);
      assert w + [s[0]] + s[1..] == w + s;
    }
  }

  /** A word can be sent without quotes exactly when it is not empty, holds no hard character and
      does not begin with '#' or '~'. */
  lemma {:induction false} BareWordSurvives(s: string)
    ensures Split(s) == Some([s]) <==> s != "" && !ContainsAny(s, HARD) && s[0] !in LEADING
  {
    if s == "" {
      assert Split(s) == Some([]);
    } else if ContainsAny(s, HARD) {
      HardCharacterIsLost(Reader(s, Plain, None, []));
      assert [s][..0] == [];
      assert Length([s]) == |s|;
    } else {
      assert s[0] !in HARD;
      if s[0] !in LEADING {
        assert !ContainsAny(s[1..], HARD) by {
          assert forall i :: 0 <= i < |s| - 1 ==> s[1..][i] == s[i + 1];
        }
        LexSoft(s[1..], [s[0]], []);
        assert [s[0]] + s[1..] == s && "" + [s[0]] == [s[0]] && [] + [s] == [s];
        assert Split(s) == Lex(s[1..], Plain, Some([s[0]]), []);
      }
    }
  }

  /** The quoting is cautious: it leaves a word bare only where that is safe, and quotes a safe word
      only for a ']' or for a '#' or '~' inside it. */
  lemma {:induction false} QuotesWhereNeeded(s: string)
    ensures ShellQuote(s) == s ==> Split(s) == Some([s])
    ensures Split(s) == Some([s]) ==> (ShellQuote(s) != s <==> ContainsAny(s, "]#~"))
    ensures Split(s) != Some([s]) && s != "" ==> ShellQuote(s) == "'" + Escape(s) + "'"
  {
    BareWordSurvives(s);
    if s != "" {
      if ContainsAny(s, SPECIAL) {
        EscapeGrows(s);
        assert |ShellQuote(s)| > |s|;
        var i :| 0 <= i < |s| && s[i] in SPECIAL;
        if !ContainsAny(s, HARD) {
          assert s[i] !in HARD;
          assert s[i] in "]#~";
        }
      } else {
        assert s[0] !in SPECIAL;
        assert forall c <- HARD :: c in SPECIAL;
      }
    }
  }

  lemma {:induction false} EscapeGrows(s: string)
    ensures |s| <= |Escape(s)|
  {
    if s != "" {
      EscapeGrows(s[1..]);
    }
  }

  /** Escaping works character by character, and changes single quotes only. */
  lemma {:induction false} EscapeInOrder(a: string, b: string)
    ensures Escape(a + b) == Escape(a) + Escape(b)
  {
    if a == "" {
      assert a + b == b;
    } else {
      hide Escape;
      EscapeInOrder(a[1..], b);
      EscapeFirst(a[0], a[1..]);
      EscapeFirst(a[0], a[1..] + b);
      assert a == [a[0]] + a[1..] && a + b == [a[0]] + (a[1..] + b);
    }
  }

  lemma EscapeFirst(c: char, s: string)
    ensures Escape([c] + s) == Escape([c]) + Escape(s)
  {
    EscapeOfOne(c);
    assert ([c] + s)[0] == c && ([c] + s)[1..] == s;
  }

  lemma EscapeOfOne(c: char)
    ensures Escape([c]) == if c == '\'' then "'\\''" else [c]
  {
    assert [c][1..] == [] && Escape("") == "";
  }

  /** Joining puts exactly one blank between neighbours. */
  lemma {:induction false} JoinInOrder(a: seq<string>, b: seq<string>)
    requires a != [] && b != []
    ensures Join(a + b) == Join(a) + " " + Join(b) && forall x: string :: Join([x]) == x
  {
    assert (a + b)[0] == a[0] && (a + b)[1..] == a[1..] + b;
    if |a| > 1 {
      JoinInOrder(a[1..], b);
    } else {
      assert a[1..] + b == b;
    }
  }

  // ------------------------------------------------------------------
  // The executor's loop

  /** The last argument of the ssh command for `name` and `args`. */
  method CommandLine(name: string, args: seq<string>) returns (line: string)
    ensures line == Join(QuoteAll([name] + args))
    ensures Split(line) == Some([name] + args)
  {
    var quoted := [ShellQuote(name)];
    for i := 0 to |args|
      invariant quoted == QuoteAll([name] + args[..i])
    {
      quoted := quoted + [ShellQuote(args[i])];
      assert [name] + args[..i + 1] == [name] + args[..i] + [args[i]];
    }
    assert args[..|args|] == args;
    line := Join(quoted);
    QuotingRoundTrip([name] + args);
  }
}
