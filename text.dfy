/**
 * The string primitives the program relies on: `str.split(" ")`, joining words with
 * single spaces, ASCII lower-casing, and prefix/suffix tests.
 */
module Text {

  /** Python's `s.split(" ")`: every single space separates two pieces, so adjacent,
      leading or trailing spaces give empty pieces and the empty string gives `[""]`. */
  function Split(s: string): (r: seq<string>)
    ensures |r| >= 1
    decreases |s|
  {
    if |s| == 0 then [""]
    else
      var rest := Split(s[1..]);
      if s[0] == ' ' then [""] + rest
      else [[s[0]] + rest[0]] + rest[1..]
  }

  /** The words joined with `sep` between neighbours (`sep.join(words)`). */
  function Join(words: seq<string>, sep: string): string
  {
    if |words| == 0 then ""
    else if |words| == 1 then words[0]
    else words[0] + sep + Join(words[1..], sep)
  }

  /** The words joined with one space between neighbours. */
  function JoinSpaces(words: seq<string>): string
  {
    Join(words, " ")
  }

  predicate NoSpace(s: string)
  {
    ' ' !in s
  }

  /** A string that `str.format` copies unchanged and `split(" ")` keeps whole. */
  predicate Plain(s: string)
  {
    ' ' !in s && '{' !in s && '}' !in s
  }

  /** `Plain` checked character by character, the cheap way to establish it for a literal. */
  lemma PlainByChars(s: string)
    requires forall i :: 0 <= i < |s| ==> s[i] != ' ' && s[i] != '{' && s[i] != '}'
    ensures Plain(s)
  {
  }

  predicate Braceless(s: string)
  {
    '{' !in s && '}' !in s
  }

  predicate StartsWith(s: string, prefix: string)
  {
    |prefix| <= |s| && s[..|prefix|] == prefix
  }

  predicate EndsWith(s: string, suffix: string)
  {
    |suffix| <= |s| && s[|s| - |suffix|..] == suffix
  }

  function LowerChar(c: char): char
  {
    if 'A' <= c <= 'Z' then (c as int - 'A' as int + 'a' as int) as char else c
  }

  /** `str.lower()` restricted to ASCII letters. */
  function Lower(s: string): (r: string)
    ensures |r| == |s|
    ensures forall i :: 0 <= i < |s| ==> r[i] == LowerChar(s[i])
  {
    seq(|s|, i requires 0 <= i < |s| => LowerChar(s[i]))
  }

  lemma LowerConcat(a: string, b: string)
    ensures Lower(a + b) == Lower(a) + Lower(b)
  {
    assert forall i :: 0 <= i < |a + b| ==> Lower(a + b)[i] == (Lower(a) + Lower(b))[i];
  }

  /** Lower-casing twice is lower-casing once. */
  lemma LowerIdempotent(s: string)
    ensures Lower(Lower(s)) == Lower(s)
  {
  }

  /** A piece of the split never holds a space. */
  lemma {:induction false} SplitPiecesHaveNoSpace(s: string)
    ensures forall p :: p in Split(s) ==> NoSpace(p)
    decreases |s|
  {
    if |s| > 0 {
      SplitPiecesHaveNoSpace(s[1..]);
      var rest := Split(s[1..]);
      assert rest[0] in rest;
      if s[0] != ' ' {
        assert forall c :: c in [s[0]] + rest[0] ==> c == s[0] || c in rest[0];
        assert forall p :: p in rest[1..] ==> p in rest;
      }
    }
  }

  /** Splitting then joining gives back the original string. */
  lemma {:induction false} JoinSplit(s: string)
    ensures JoinSpaces(Split(s)) == s
    decreases |s|
  {
    if |s| > 0 {
      var rest := Split(s[1..]);
      JoinSplit(s[1..]);
      if s[0] == ' ' {
        assert ([""] + rest)[1..] == rest;
        assert s == [s[0]] + s[1..];
      } else {
        var r := [[s[0]] + rest[0]] + rest[1..];
        assert r[1..] == rest[1..];
        if |rest| > 1 {
          assert Join(rest, " ") == rest[0] + " " + Join(rest[1..], " ");
        }
        assert s == [s[0]] + s[1..];
      }
    }
  }

  /** A string without spaces is a single piece. */
  lemma {:induction false} SplitNoSpace(s: string)
    requires NoSpace(s)
    ensures Split(s) == [s]
    decreases |s|
  {
    if |s| > 0 {
      assert s[0] in s;
      assert forall c :: c in s[1..] ==> c in s;
      SplitNoSpace(s[1..]);
      assert s == [s[0]] + s[1..];
    }
  }

  /** A space splits a string into the pieces of its two sides. */
  lemma {:induction false} SplitAtSpace(a: string, b: string)
    ensures Split(a + " " + b) == Split(a) + Split(b)
    decreases |a|
  {
    var s := a + " " + b;
    if |a| == 0 {
      assert s == " " + b;
      assert s[1..] == b;
    } else {
      assert s[0] == a[0];
      assert s[1..] == a[1..] + " " + b;
      SplitAtSpace(a[1..], b);
    }
  }

  /** A trailing space adds one empty piece at the end and changes nothing else. */
  lemma SplitTrailingSpace(a: string)
    ensures Split(a + " ") == Split(a) + [""]
  {
    SplitAtSpace(a, "");
    assert a + " " + "" == a + " ";
  }

  /** Joining space-free words and splitting the result gives the words back. */
  lemma {:induction false} SplitJoin(words: seq<string>)
    requires |words| >= 1
    requires forall w :: w in words ==> NoSpace(w)
    ensures Split(JoinSpaces(words)) == words
  {
    assert words[0] in words;
    SplitNoSpace(words[0]);
    if |words| > 1 {
      assert forall w :: w in words[1..] ==> w in words;
      SplitJoin(words[1..]);
      SplitAtSpace(words[0], JoinSpaces(words[1..]));
      assert words == [words[0]] + words[1..];
    }
  }

  /** Appending a word to a non-empty list appends the separator and that word to the text. */
  lemma {:induction false} JoinAppend(words: seq<string>, sep: string, w: string)
    requires |words| >= 1
    ensures Join(words + [w], sep) == Join(words, sep) + sep + w
  {
    if |words| > 1 {
      assert (words + [w])[1..] == words[1..] + [w];
      JoinAppend(words[1..], sep, w);
    } else {
      assert (words + [w])[1..] == [w];
    }
  }

  /** Every piece of a brace-free string is brace-free. */
  lemma {:induction false} SplitPiecesBraceless(s: string)
    requires Braceless(s)
    ensures forall p :: p in Split(s) ==> Braceless(p)
    decreases |s|
  {
    if |s| > 0 {
      assert forall c :: c in s[1..] ==> c in s;
      assert s[0] in s;
      SplitPiecesBraceless(s[1..]);
      var rest := Split(s[1..]);
      assert rest[0] in rest;
      if s[0] != ' ' {
        assert forall c :: c in [s[0]] + rest[0] ==> c == s[0] || c in rest[0];
        assert forall p :: p in rest[1..] ==> p in rest;
      }
    }
  }
}
