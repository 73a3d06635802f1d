/** The small quoting language of GOCACHEPROG: whole words in single or double quotes, no escapes. */
module Quoting {
  import opened Common
  import opened Texts

  predicate IsSpace(c: char) {
    c == ' ' || c == '\t' || c == '\r' || c == '\n'
  }

  predicate IsQuote(c: char) {
    c == '\'' || c == '"'
  }

  predicate HasSpace(s: string) {
    exists i :: 0 <= i < |s| && IsSpace(s[i])
  }

  function TrimLeft(s: string): (r: string)
    ensures |r| <= |s| && (r != [] ==> !IsSpace(r[0]))
  {
    if s != [] && IsSpace(s[0]) then TrimLeft(s[1..]) else s
  }

  /** The first position of white space, or the length. */
  function SpaceIn(s: string): (k: nat)
    ensures k <= |s| && !HasSpace(s[..k])
    ensures k < |s| ==> IsSpace(s[k])
    ensures s != [] && !IsSpace(s[0]) ==> k > 0
  {
    if s == [] || IsSpace(s[0]) then 0
    else
      var k := SpaceIn(s[1..]);
      assert s[..k + 1] == [s[0]] + s[1..][..k];
      k + 1
  }

  // ------------------------------------------------------------------------------------------
  // Splitting and quoting
  // ------------------------------------------------------------------------------------------

  function Cons(word: string, r: Result<seq<string>, char>): Result<seq<string>, char> {
    if r.Ok? then Ok([word] + r.value) else r
  }

  /** The words of a command line; an unterminated quote is an error. */
  function Words(s: string): Result<seq<string>, char>
    decreases |s|
  {
    var t := TrimLeft(s);
    if t == [] then Ok([])
    else if IsQuote(t[0]) then
      var k := IndexOf(t[1..], t[0]);
      if k == |t| - 1 then Err(t[0]) else Cons(t[1..][..k], Words(t[1..][k + 1..]))
    else
      var k := SpaceIn(t);
      if k == |t| then Ok([t]) else Cons(t[..k], Words(t[k..]))
  }

  predicate Special(s: string) {
    HasSpace(s) || '\'' in s || '"' in s
  }

  function Quote(s: string): string {
    if !Special(s) then s
    else if '\'' !in s then ['\''] + s + ['\'']
    else if '"' !in s then ['"'] + s + ['"']
    else s
  }

  /** The words quoted, with single spaces between them. */
  function Join(words: seq<string>): string {
    if words == [] then []
    else if |words| == 1 then Quote(words[0])
    else Quote(words[0]) + [' '] + Join(words[1..])
  }

  /** The language can express the word: it lacks one kind of quote, or needs none. */
  predicate Quotable(s: string) {
    s != "" && ('\'' !in s || '"' !in s || (!HasSpace(s) && !IsQuote(s[0])))
  }

  // ------------------------------------------------------------------------------------------
  // Every word that splitting yields can be quoted
  // ------------------------------------------------------------------------------------------

  lemma {:induction false} WordsAreQuotable(s: string)
    ensures Words(s).Ok? ==> forall i | 0 <= i < |Words(s).value| :: Words(s).value[i] == "" || Quotable(Words(s).value[i])
    decreases |s|
  {
    var t := TrimLeft(s);
    if t != [] {
      if IsQuote(t[0]) {
        var rest := t[1..];
        var k := IndexOf(rest, t[0]);
        if k < |rest| {
          WordsAreQuotable(rest[k + 1..]);
          hide IndexOf, TrimLeft, HasSpace;
          assert Words(s) == Cons(rest[..k], Words(rest[k + 1..]));
        }
      } else {
        var k := SpaceIn(t);
        assert t[..k][0] == t[0];
        if k < |t| {
          WordsAreQuotable(t[k..]);
        } else {
          assert t[..k] == t;
        }
      }
    }
  }

  // ------------------------------------------------------------------------------------------
  // Round trip
  // ------------------------------------------------------------------------------------------

  /** What follows a word in a command line: nothing, or a space and more. */
  predicate Tail(rest: string) {
    rest == "" || rest[0] == ' '
  }

  lemma SpaceAfter(word: string, rest: string)
    requires !HasSpace(word) && Tail(rest)
    ensures SpaceIn(word + rest) == |word|
    decreases |word|
  {
    if word != [] {
      assert (word + rest)[1..] == word[1..] + rest;
      assert !IsSpace(word[0]);
      assert forall i | 0 <= i < |word[1..]| :: word[1..][i] == word[i + 1];
      SpaceAfter(word[1..], rest);
    }
  }

  lemma WordsSkip(rest: string)
    ensures Words([' '] + rest) == Words(rest)
  {
    assert ([' '] + rest)[1..] == rest;
    assert TrimLeft([' '] + rest) == TrimLeft(rest);
  }

  lemma QuotedWord(q: char, word: string, rest: string)
    requires IsQuote(q) && q !in word
    ensures Words([q] + word + [q] + rest) == Cons(word, Words(rest))
  {
    var t := [q] + word + [q] + rest;
    assert t[1..] == word + [q] + rest;
    IndexIsUnique(word, rest, q);
    assert t[1..][..|word|] == word && t[1..][|word| + 1..] == rest;
  }

  lemma BareWord(word: string, rest: string)
    requires word != "" && !HasSpace(word) && !IsQuote(word[0]) && Tail(rest)
    ensures Words(word + rest) == Cons(word, Words(rest))
  {
    var t := word + rest;
    assert t[0] == word[0] && !IsSpace(word[0]);
    SpaceAfter(word, rest);
    assert t[..|word|] == word && t[|word|..] == rest;
    if rest == "" {
      assert t == word;
      assert [word] + [] == [word];
    }
  }

  /** One quotable word is read back, whatever follows it. */
  lemma QuoteReads(word: string, rest: string)
    requires Quotable(word) && Tail(rest)
    ensures Words(Quote(word) + rest) == Cons(word, Words(rest))
  {
    if !Special(word) {
      assert word[0] in word;
      BareWord(word, rest);
    } else if '\'' !in word {
      QuotedWord('\'', word, rest);
    } else if '"' !in word {
      QuotedWord('"', word, rest);
    } else {
      BareWord(word, rest);
    }
  }

  function NonEmpty(words: seq<string>): seq<string> {
    if words == [] then [] else (if words[0] == "" then [] else [words[0]]) + NonEmpty(words[1..])
  }

  /** Quoted and joined, quotable words are split again as they were; empty words vanish. */
  lemma {:induction false} SplitJoined(words: seq<string>)
    requires forall i | 0 <= i < |words| :: words[i] == "" || Quotable(words[i])
    ensures Words(Join(words)) == Ok(NonEmpty(words))
  {
    if words != [] {
      SplitJoined(words[1..]);
      JoinReads(words[0], words[1..]);
      hide Words, Join, Quotable;
      assert words == [words[0]] + words[1..];
      assert [] + NonEmpty(words[1..]) == NonEmpty(words[1..]);
    } else {
      assert TrimLeft(Join(words)) == [];
    }
  }

  /** A joined list begins with its first word, if that is not empty. */
  lemma JoinReads(w: string, rest: seq<string>)
    requires w == "" || Quotable(w)
    ensures Words(Join([w] + rest)) == if w == "" then Words(Join(rest)) else Cons(w, Words(Join(rest)))
  {
    var words := [w] + rest;
    hide Words, Quotable;
    assert words[1..] == rest;
    EmptyWord();
    if rest == [] {
      assert Join(words) == Quote(w) + "";
      if w != "" {
        QuoteReads(w, "");
      }
    } else {
      var more := [' '] + Join(rest);
      assert Join(words) == Quote(w) + more;
      WordsSkip(Join(rest));
      if w != "" {
        QuoteReads(w, more);
      } else {
        assert Quote(w) + more == more;
      }
    }
  }

  lemma EmptyWord()
    ensures Quote("") == "" && Words("") == Ok([])
  {
    assert !HasSpace("");
    assert TrimLeft("") == "";
  }

  lemma {:induction false} NonEmptySame(words: seq<string>)
    ensures |NonEmpty(words)| <= |words|
    ensures NonEmpty(words) == words <==> forall i | 0 <= i < |words| :: words[i] != ""
  {
    if words != [] {
      NonEmptySame(words[1..]);
      assert words == [words[0]] + words[1..];
      if words[0] != "" {
        assert NonEmpty(words)[1..] == NonEmpty(words[1..]);
      }
    }
  }

  /** Quoting and splitting are inverse exactly on the lists of words the language can express. */
  lemma RoundTripIff(words: seq<string>)
    ensures Words(Join(words)) == Ok(words) <==> forall i | 0 <= i < |words| :: Quotable(words[i])
  {
    WordsAreQuotable(Join(words));
    NonEmptySame(words);
    if forall i | 0 <= i < |words| :: words[i] == "" || Quotable(words[i]) {
      SplitJoined(words);
    }
  }

  // ------------------------------------------------------------------------------------------
  // The language, character by character
  // ------------------------------------------------------------------------------------------

  /** No character with a meaning of its own. */
  predicate Ordinary(s: string) {
    ' ' !in s && '\t' !in s && '\r' !in s && '\n' !in s && '\'' !in s && '"' !in s
  }

  lemma OrdinaryHasNoSpace(s: string)
    requires Ordinary(s)
    ensures !HasSpace(s) && (s != "" ==> !IsQuote(s[0]))
  {
    forall i | 0 <= i < |s|
      ensures !IsSpace(s[i]) && !IsQuote(s[i])
    {
      assert s[i] in s;
    }
  }

  /** Ordinary characters make one word. */
  lemma OrdinaryIsOneWord(a: string)
    requires a != "" && Ordinary(a)
    ensures Words(a) == Ok([a])
  {
    OrdinaryHasNoSpace(a);
    EmptyWord();
    BareWord(a, "");
    assert a + "" == a;
    assert [a] + [] == [a];
  }

  /** A blank, a tab, a return or a line break ends a word, and any number of them does no more. */
  lemma SpaceSeparates(a: string, c: char, rest: string)
    requires a != "" && Ordinary(a) && (c == ' ' || c == '\t' || c == '\r' || c == '\n')
    ensures Words(a + [c] + rest) == Cons(a, Words(rest)) && Words([c] + rest) == Words(rest)
  {
    SpaceSkips(c, rest);
    OrdinaryHasNoSpace(a);
    SpaceAt(a, c, rest);
    var t := a + [c] + rest;
    assert t[0] == a[0] && !IsSpace(a[0]);
    assert t[..|a|] == a && t[|a|..] == [c] + rest;
    assert TrimLeft(t) == t;
    hide SpaceIn, HasSpace, Ordinary, TrimLeft;
  }

  lemma SpaceSkips(c: char, rest: string)
    requires IsSpace(c)
    ensures Words([c] + rest) == Words(rest)
  {
    assert ([c] + rest)[1..] == rest;
    assert TrimLeft([c] + rest) == TrimLeft(rest);
  }

  lemma {:induction false} SpaceAt(a: string, c: char, rest: string)
    requires !HasSpace(a) && IsSpace(c)
    ensures SpaceIn(a + [c] + rest) == |a|
  {
    if a != [] {
      assert (a + [c] + rest)[1..] == a[1..] + [c] + rest;
      assert !IsSpace(a[0]);
      assert forall i | 0 <= i < |a[1..]| :: a[1..][i] == a[i + 1];
      SpaceAt(a[1..], c, rest);
    }
  }

  /** Either quote keeps everything up to the next of its kind together, white space and the other quote included. */
  lemma QuotesDelimit(word: string, rest: string)
    ensures '\'' !in word ==> Words(['\''] + word + ['\''] + rest) == Cons(word, Words(rest))
    ensures '"' !in word ==> Words(['"'] + word + ['"'] + rest) == Cons(word, Words(rest))
    ensures '\'' !in word ==> Words(['\''] + word) == Err('\'')
    ensures '"' !in word ==> Words(['"'] + word) == Err('"')
  {
    if '\'' !in word {
      QuotedWord('\'', word, rest);
      OpenQuote('\'', word);
    }
    if '"' !in word {
      QuotedWord('"', word, rest);
      OpenQuote('"', word);
    }
  }

  lemma OpenQuote(q: char, word: string)
    requires IsQuote(q) && q !in word
    ensures Words([q] + word) == Err(q)
  {
    var t := [q] + word;
    assert t[1..] == word;
    IndexIsUnique(word, "", q);
  }

  // ------------------------------------------------------------------------------------------
  // The program
  // ------------------------------------------------------------------------------------------

  function Prepend(ret: seq<string>, r: Result<seq<string>, char>): Result<seq<string>, char> {
    if r.Ok? then Ok(ret + r.value) else r
  }

  lemma PrependCons(ret: seq<string>, word: string, r: Result<seq<string>, char>)
    ensures Prepend(ret, Cons(word, r)) == Prepend(ret + [word], r)
  {
    if r.Ok? {
      assert ret + ([word] + r.value) == ret + [word] + r.value;
    }
  }

  method SplitQuoted(command: string) returns (r: Result<seq<string>, char>)
    ensures r == Words(command)
  {
    var s, ret := command, [];
    assert Words(command).Ok? ==> [] + Words(command).value == Words(command).value;
    while |s| > 0
      invariant Prepend(ret, Words(s)) == Words(command)
      decreases |s|
    {
      ghost var was := s;
      s := TrimLeft(s);
      assert Words(s) == Words(was) by { TrimTwice(was); }
      if s == "" {
        break;
      }
      assert TrimLeft(s) == s;
      if IsQuote(s[0]) {
        var quote := s[0];
        s := s[1..];
        var i := IndexOf(s, quote);
        if i == |s| {
          return Err(quote);
        }
        PrependCons(ret, s[..i], Words(s[i + 1..]));
        ret := ret + [s[..i]];
        s := s[i + 1..];
        continue;
      }
      var i := SpaceIn(s);
      if i == |s| {
        return Ok(ret + [s]);
      }
      PrependCons(ret, s[..i], Words(s[i..]));
      ret := ret + [s[..i]];
      s := s[i..];
    }
    assert ret + [] == ret;
    return Ok(ret);
  }

  lemma TrimTwice(s: string)
    ensures Words(TrimLeft(s)) == Words(s)
  {
    assert TrimLeft(TrimLeft(s)) == TrimLeft(s);
  }
}
