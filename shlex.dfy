/** The part of Python's `shlex.split` (POSIX mode, no comments) that the shell
    relies on: whitespace-separated words, single and double quotes, backslash
    escapes, and the two `ValueError`s for unbalanced input. */
module Shlex {
  import opened Text

  datatype Lexed = Tokens(words: seq<string>) | LexError(msg: string)

  const NoClosingQuotation := "No closing quotation"
  const NoEscapedCharacter := "No escaped character"

  /** `shlex` splits on these four characters only. */
  predicate IsBlank(c: char) {
    c == ' ' || c == '\t' || c == '\r' || c == '\n'
  }

  /** A character that has no special meaning to the lexer. */
  predicate IsPlain(c: char) {
    !IsBlank(c) && c != '\'' && c != '"' && c != '\\'
  }

  predicate IsPlainWord(w: string) {
    w != [] && forall k :: 0 <= k < |w| ==> IsPlain(w[k])
  }

  datatype Mode = Between | InWord | InSingle | InDouble

  /** The lexer over the rest `s` of the input; `cur` is the word being read
      (meaningful outside `Between`) and `toks` the words finished so far. */
  function Lex(s: string, mode: Mode, cur: string, toks: seq<string>): Lexed
    decreases |s|
  {
    if s == [] then
      match mode
      case Between => Tokens(toks)
      case InWord => Tokens(toks + [cur])
      case _ => LexError(NoClosingQuotation)
    else
      var c := s[0];
      match mode
      case InSingle =>
        if c == '\'' then Lex(s[1..], InWord, cur, toks)
        else Lex(s[1..], InSingle, cur + [c], toks)
      case InDouble =>
        if c == '"' then Lex(s[1..], InWord, cur, toks)
        else if c == '\\' then
          if |s| == 1 then LexError(NoEscapedCharacter)
          else if s[1] == '"' || s[1] == '\\' then Lex(s[2..], InDouble, cur + [s[1]], toks)
          else Lex(s[2..], InDouble, cur + ['\\', s[1]], toks)
        else Lex(s[1..], InDouble, cur + [c], toks)
      case _ =>
        var word := if mode == Between then "" else cur;
        if IsBlank(c) then
          Lex(s[1..], Between, "", if mode == Between then toks else toks + [cur])
        else if c == '\'' then Lex(s[1..], InSingle, word, toks)
        else if c == '"' then Lex(s[1..], InDouble, word, toks)
        else if c == '\\' then
          if |s| == 1 then LexError(NoEscapedCharacter)
          else Lex(s[2..], InWord, word + [s[1]], toks)
        else Lex(s[1..], InWord, word + [c], toks)
  }

  /** `shlex.split(s)`. */
  function Tokenize(s: string): Lexed {
    Lex(s, Between, "", [])
  }

  /** Blanks alone give no words, whatever was already read. */
  lemma {:induction false} LexBlanks(s: string, toks: seq<string>)
    requires forall k :: 0 <= k < |s| ==> IsBlank(s[k])
    ensures Lex(s, Between, "", toks) == Tokens(toks)
  {
    if s != [] {
      LexBlanks(s[1..], toks);
    }
  }

  /** Reading a plain word extends the current word by it. */
  lemma {:induction false} LexPlain(w: string, rest: string, cur: string, toks: seq<string>)
    requires forall k :: 0 <= k < |w| ==> IsPlain(w[k])
    ensures Lex(w + rest, InWord, cur, toks) == Lex(rest, InWord, cur + w, toks)
  {
    if w != [] {
      var s := w + rest;
      assert s[0] == w[0] && IsPlain(s[0]);
      assert s[1..] == w[1..] + rest;
      assert Lex(s, InWord, cur, toks) == Lex(s[1..], InWord, cur + [w[0]], toks);
      LexPlain(w[1..], rest, cur + [w[0]], toks);
      assert cur + [w[0]] + w[1..] == cur + w;
    } else {
      assert w + rest == rest && cur + w == cur;
    }
  }

  lemma LexFirstWord(w: string, rest: string, toks: seq<string>)
    requires IsPlainWord(w)
    ensures Lex(w + rest, Between, "", toks) == Lex(rest, InWord, w, toks)
  {
    var s := w + rest;
    assert s[0] == w[0] && IsPlain(s[0]);
    assert s[1..] == w[1..] + rest;
    assert "" + [w[0]] == [w[0]];
    LexPlain(w[1..], rest, [w[0]], toks);
    assert [w[0]] + w[1..] == w;
  }

  /** Plain words joined by single spaces split back into the same words. */
  lemma {:induction false} LexJoined(ws: seq<string>, toks: seq<string>)
    requires ws != [] && forall k :: 0 <= k < |ws| ==> IsPlainWord(ws[k])
    ensures Lex(Join(" ", ws), Between, "", toks) == Tokens(toks + ws)
  {
    if |ws| == 1 {
      LexFirstWord(ws[0], "", toks);
      assert ws[0] + "" == ws[0];
      assert ws == [ws[0]];
    } else {
      var rest := Join(" ", ws[1..]);
      assert Join(" ", ws) == ws[0] + (" " + rest);
      LexFirstWord(ws[0], " " + rest, toks);
      assert (" " + rest)[1..] == rest;
      LexJoined(ws[1..], toks + [ws[0]]);
      assert toks + [ws[0]] + ws[1..] == toks + ws;
    }
  }

  /** The round trip the function-call translator depends on. */
  lemma TokenizeJoined(ws: seq<string>)
    requires ws != [] && forall k :: 0 <= k < |ws| ==> IsPlainWord(ws[k])
    ensures Tokenize(Join(" ", ws)) == Tokens(ws)
  {
    LexJoined(ws, []);
    assert [] + ws == ws;
  }

  /** Input made of blanks only has no words. */
  lemma TokenizeBlank(s: string)
    requires forall k :: 0 <= k < |s| ==> IsBlank(s[k])
    ensures Tokenize(s) == Tokens([])
  {
    LexBlanks(s, []);
  }

  /** An empty pair of quotes is a word of its own. */
  lemma TokenizeEmptyQuotes()
    ensures Tokenize("\"\"") == Tokens([""])
  {
    assert "\"\""[1..] == "\"";
    assert "\""[1..] == "";
  }

  /** An unbalanced quote is the parsing error. */
  lemma TokenizeUnclosed(w: string)
    requires forall k :: 0 <= k < |w| ==> IsPlain(w[k])
    ensures Tokenize("'" + w) == LexError(NoClosingQuotation)
  {
    var s := "'" + w;
    assert s[1..] == w;
    LexSingle(w, "", []);
  }

  lemma {:induction false} LexSingle(w: string, cur: string, toks: seq<string>)
    requires '\'' !in w
    ensures Lex(w, InSingle, cur, toks) == LexError(NoClosingQuotation)
  {
    if w != [] {
      LexSingle(w[1..], cur + [w[0]], toks);
    }
  }
}
