/** The two pieces of string handling in the session layer: splitting the
    `players` field of a `list` result on ", " and escaping chat text before
    it is embedded in a `tellraw` command. */
module Text {
  import opened Values

  // ---------------------------------------------------------------------
  // String.prototype.split(", ")
  // ---------------------------------------------------------------------

  /** True when `p` contains the separator ", " at position `i`. */
  predicate SeparatorAt(p: string, i: int)
  {
    0 <= i && i + 1 < |p| && p[i] == ',' && p[i + 1] == ' '
  }

  predicate NoSeparator(p: string)
  {
    forall i :: 0 <= i < |p| ==> !SeparatorAt(p, i)
  }

  /** `s.split(", ")`: cut at every occurrence of the separator, scanning left to right. */
  function Split(s: string): (parts: seq<string>)
    ensures |parts| >= 1
    decreases |s|
  {
    if |s| < 2 then [s]
    else if s[0] == ',' && s[1] == ' ' then [""] + Split(s[2..])
    else
      var rest := Split(s[1..]);
      [[s[0]] + rest[0]] + rest[1..]
  }

  /** `parts.join(", ")`, the inverse of Split. */
  function Join(parts: seq<string>): string
  {
    if |parts| == 0 then ""
    else if |parts| == 1 then parts[0]
    else parts[0] + ", " + Join(parts[1..])
  }

  lemma JoinCons(p: string, rest: seq<string>)
    requires |rest| >= 1
    ensures Join([p] + rest) == p + ", " + Join(rest)
  {
    assert ([p] + rest)[1..] == rest;
  }

  /** Joining the pieces again gives back the text that was split. */
  lemma {:induction false} JoinSplit(s: string)
    ensures Join(Split(s)) == s
    decreases |s|
  {
    if |s| < 2 {
    } else if s[0] == ',' && s[1] == ' ' {
      JoinSplit(s[2..]);
      JoinSplitAtSeparator(s);
    } else {
      JoinSplit(s[1..]);
      JoinSplitAtChar(s);
    }
  }

  lemma JoinSplitAtSeparator(s: string)
    requires |s| >= 2 && s[0] == ',' && s[1] == ' '
    requires Join(Split(s[2..])) == s[2..]
    ensures Join(Split(s)) == s
  {
    JoinCons("", Split(s[2..]));
    assert s == ", " + s[2..];
  }

  lemma JoinSplitAtChar(s: string)
    requires |s| >= 2 && !(s[0] == ',' && s[1] == ' ')
    requires Join(Split(s[1..])) == s[1..]
    ensures Join(Split(s)) == s
  {
    var rest := Split(s[1..]);
    assert Split(s) == [[s[0]] + rest[0]] + rest[1..];
    assert rest == [rest[0]] + rest[1..];
    JoinPrepend(s[0], rest[0], rest[1..]);
    assert s == [s[0]] + s[1..];
  }

  /** A character put in front of the first piece ends up in front of the joined text. */
  lemma JoinPrepend(c: char, p: string, more: seq<string>)
    ensures Join([[c] + p] + more) == [c] + Join([p] + more)
  {
    if more == [] {
      assert [[c] + p] + more == [[c] + p];
      assert [p] + more == [p];
    } else {
      JoinCons([c] + p, more);
      JoinCons(p, more);
    }
  }

  /** Splitting a joined list of separator-free pieces gives the pieces back,
      so a text has exactly one decomposition into such pieces. */
  lemma {:induction false} SplitJoin(parts: seq<string>)
    requires |parts| >= 1
    requires forall k :: 0 <= k < |parts| ==> NoSeparator(parts[k])
    ensures Split(Join(parts)) == parts
    decreases |parts|
  {
    if |parts| == 1 {
      SplitPiece(parts[0]);
    } else {
      var rest := parts[1..];
      SplitJoin(rest);
      JoinCons(parts[0], rest);
      SplitBeforeSeparator(parts[0], Join(rest));
      assert parts == [parts[0]] + rest;
    }
  }

  /** A separator-free text is a single piece. */
  lemma {:induction false} SplitPiece(p: string)
    requires NoSeparator(p)
    ensures Split(p) == [p]
    decreases |p|
  {
    if |p| >= 2 {
      assert !SeparatorAt(p, 0);
      assert forall i :: 0 <= i < |p[1..]| ==> (SeparatorAt(p[1..], i) ==> SeparatorAt(p, i + 1));
      SplitPiece(p[1..]);
      assert p == [p[0]] + p[1..];
    }
  }

  /** A separator-free piece followed by the separator is cut off whole. */
  lemma {:induction false} SplitBeforeSeparator(p: string, t: string)
    requires NoSeparator(p)
    ensures Split(p + ", " + t) == [p] + Split(t)
    decreases |p|
  {
    var s := p + ", " + t;
    if p == [] {
      assert s == ", " + t && s[2..] == t;
    } else {
      var q := p[1..];
      assert forall i :: 0 <= i < |q| ==> (SeparatorAt(q, i) ==> SeparatorAt(p, i + 1));
      SplitBeforeSeparator(q, t);
      assert !SeparatorAt(p, 0);
      assert s[0] == p[0] && s[1..] == q + ", " + t;
      assert !(s[0] == ',' && s[1] == ' ');
      assert p == [p[0]] + q;
    }
  }

  /** The first piece is a prefix of the text. */
  lemma {:induction false} SplitHeadIsPrefix(s: string)
    ensures Split(s)[0] <= s
    decreases |s|
  {
    if |s| >= 2 && !(s[0] == ',' && s[1] == ' ') {
      SplitHeadIsPrefix(s[1..]);
    }
  }

  /** No piece contains the separator; with JoinSplit this fixes the pieces uniquely. */
  lemma {:induction false} SplitPiecesHaveNoSeparator(s: string)
    ensures forall k :: 0 <= k < |Split(s)| ==> NoSeparator(Split(s)[k])
    decreases |s|
  {
    if |s| < 2 {
      forall i ensures !SeparatorAt(s, i) {
      }
    } else if s[0] == ',' && s[1] == ' ' {
      SplitPiecesHaveNoSeparator(s[2..]);
      var parts := Split(s);
      forall k | 0 <= k < |parts| ensures NoSeparator(parts[k]) {
        if k > 0 {
          assert parts[k] == Split(s[2..])[k - 1];
        }
      }
    } else {
      var rest := Split(s[1..]);
      SplitPiecesHaveNoSeparator(s[1..]);
      SplitHeadIsPrefix(s[1..]);
      var head := [s[0]] + rest[0];
      forall i | 0 <= i < |head| ensures !SeparatorAt(head, i) {
        if i == 0 {
          if |head| > 1 {
            assert head[1] == rest[0][0] == s[1];
          }
        } else {
          assert head[i] == rest[0][i - 1];
          assert !SeparatorAt(rest[0], i - 1);
        }
      }
      var parts := Split(s);
      forall k | 0 <= k < |parts| ensures NoSeparator(parts[k]) {
        if k > 0 {
          assert parts[k] == rest[k];
        }
      }
    }
  }

  // ---------------------------------------------------------------------
  // message.replace(/\\/g, '\\\\').replace(/"/g, '\\"')
  // ---------------------------------------------------------------------

  /** `s.replace(/c/g, with)` for a one-character pattern. */
  function ReplaceAll(s: string, c: char, with: string): string
  {
    if s == [] then [] else (if s[0] == c then with else [s[0]]) + ReplaceAll(s[1..], c, with)
  }

  /** The text embedded in a `tellraw` command: backslashes doubled first, then
      every double quote prefixed with a backslash. */
  function Escape(s: string): string
  {
    ReplaceAll(ReplaceAll(s, '\\', "\\\\"), '"', "\\\"")
  }

  /** The escape of one character, read as a single-pass rewriting. */
  function EscapeChar(c: char): string
  {
    if c == '\\' then "\\\\" else if c == '"' then "\\\"" else [c]
  }

  function EscapeEach(s: string): string
  {
    if s == [] then [] else EscapeChar(s[0]) + EscapeEach(s[1..])
  }

  /** Reading a string literal body back as far as quotes and backslashes go:
      `\\` and `\"` stand for one character; a bare `"` or any other use of
      `\` means the literal would be broken. Every other character, control
      characters included, stands for itself. */
  function Unescape(t: string): Option<string>
    decreases |t|
  {
    if t == [] then Some([])
    else if t[0] == '"' then None
    else if t[0] == '\\' then
      if |t| >= 2 && (t[1] == '\\' || t[1] == '"') then
        match Unescape(t[2..])
        case None => None
        case Some(rest) => Some([t[1]] + rest)
      else None
    else
      match Unescape(t[1..])
      case None => None
      case Some(rest) => Some([t[0]] + rest)
  }

  lemma {:induction false} ReplaceAllAppend(a: string, b: string, c: char, with: string)
    ensures ReplaceAll(a + b, c, with) == ReplaceAll(a, c, with) + ReplaceAll(b, c, with)
    decreases |a|
  {
    if a == [] {
      assert a + b == b;
    } else {
      assert (a + b)[1..] == a[1..] + b;
      ReplaceAllAppend(a[1..], b, c, with);
    }
  }

  /** The two chained replacements act character by character. */
  lemma {:induction false} EscapeIsCharwise(s: string)
    ensures Escape(s) == EscapeEach(s)
    decreases |s|
  {
    if s != [] {
      EscapeIsCharwise(s[1..]);
      var first := ReplaceAll([s[0]], '\\', "\\\\");
      assert ReplaceAll(s, '\\', "\\\\") == first + ReplaceAll(s[1..], '\\', "\\\\") by {
        assert s == [s[0]] + s[1..];
        ReplaceAllAppend([s[0]], s[1..], '\\', "\\\\");
      }
      ReplaceAllAppend(first, ReplaceAll(s[1..], '\\', "\\\\"), '"', "\\\"");
      if s[0] == '\\' {
        assert first == "\\\\";
        assert ReplaceAll(first, '"', "\\\"") == "\\\\" by {
          assert first[1..] == "\\";
          assert first[1..][1..] == [];
        }
      } else if s[0] == '"' {
        assert ReplaceAll(first, '"', "\\\"") == "\\\"" by {
          assert first[1..] == [];
        }
      } else {
        assert ReplaceAll(first, '"', "\\\"") == [s[0]] by {
          assert first[1..] == [];
        }
      }
    }
  }

  lemma {:induction false} UnescapeEscapeEach(s: string)
    ensures Unescape(EscapeEach(s)) == Some(s)
    decreases |s|
  {
    if s != [] {
      UnescapeEscapeEach(s[1..]);
      var t := EscapeEach(s);
      if s[0] == '\\' || s[0] == '"' {
        assert t[0] == '\\' && t[1] == s[0];
        assert t[2..] == EscapeEach(s[1..]);
      } else {
        assert t[0] == s[0];
        assert t[1..] == EscapeEach(s[1..]);
      }
      assert s == [s[0]] + s[1..];
    }
  }

  /** The escaped text has no unescaped quote and no dangling backslash, and
      it reads back as the original message. */
  lemma UnescapeEscape(s: string)
    ensures Unescape(Escape(s)) == Some(s)
  {
    EscapeIsCharwise(s);
    UnescapeEscapeEach(s);
  }

  lemma {:induction false} EscapeEachAppend(a: string, b: string)
    ensures EscapeEach(a + b) == EscapeEach(a) + EscapeEach(b)
    decreases |a|
  {
    if a == [] {
      assert a + b == b;
    } else {
      assert (a + b)[0] == a[0];
      assert (a + b)[1..] == a[1..] + b;
      EscapeEachAppend(a[1..], b);
    }
  }

  /** Text without backslashes or quotes is embedded as it is. */
  lemma {:induction false} EscapePlain(s: string)
    requires forall i :: 0 <= i < |s| ==> s[i] != '\\' && s[i] != '"'
    ensures EscapeEach(s) == s
    decreases |s|
  {
    if s != [] {
      EscapePlain(s[1..]);
      assert s == [s[0]] + s[1..];
    }
  }

  /** A message quoting a word and ending in a backslash, such as
      `he said "hi"\`, is embedded as `he said \"hi\"\\`: the plain parts are
      kept, each quote becomes `\"` and the backslash becomes `\\`. */
  lemma EscapeQuotedWord(words: string, word: string)
    requires forall i :: 0 <= i < |words| ==> words[i] != '\\' && words[i] != '"'
    requires forall i :: 0 <= i < |word| ==> word[i] != '\\' && word[i] != '"'
    ensures Escape(words + "\"" + word + "\"" + "\\") == words + "\\\"" + word + "\\\"" + "\\\\"
  {
    var quote, slash := "\"", "\\";
    var front := words + quote;
    var closed := front + word + quote;
    EscapeIsCharwise(closed + slash);
    EscapePlain(words);
    EscapePlain(word);
    EscapeSingle('"', quote);
    EscapeSingle('\\', slash);
    EscapeEachAppend(words, quote);
    EscapeEachAppend(front, word);
    EscapeEachAppend(front + word, quote);
    EscapeEachAppend(closed, slash);
  }

  /** A one-character text escapes as that character does. */
  lemma EscapeSingle(c: char, t: string)
    requires t == [c]
    ensures EscapeEach(t) == EscapeChar(c)
  {
    assert t[1..] == [];
  }
}
