/**
 * `subproc_format` (LunaHack.py:42-49): a command template is split on single spaces
 * and every piece is passed through `str.format(rom=...)`.
 */
module Templating {
  import opened Wrappers
  import opened Text

  function Prepend(prefix: string, o: Option<string>): Option<string>
  {
    match o
    case None => None
    case Some(t) => Some(prefix + t)
  }

  /** `piece.format(rom=rom)`: `{rom}` becomes the ROM name, `{{` and `}}` become single
      braces, and any other brace is an error (Python raises). The ROM name itself is
      never scanned again. */
  function Format(piece: string, rom: string): Option<string>
    decreases |piece|
  {
    if |piece| == 0 then Some("")
    else if piece[0] == '{' then
      if |piece| >= 2 && piece[1] == '{' then Prepend("{", Format(piece[2..], rom))
      else if |piece| >= 5 && piece[..5] == "{rom}" then Prepend(rom, Format(piece[5..], rom))
      else None
    else if piece[0] == '}' then
      if |piece| >= 2 && piece[1] == '}' then Prepend("}", Format(piece[2..], rom))
      else None
    else Prepend([piece[0]], Format(piece[1..], rom))
  }

  /** The formatted pieces in order; the first piece that fails makes the whole call fail. */
  function FormatEach(pieces: seq<string>, rom: string): Option<seq<string>>
  {
    if |pieces| == 0 then Some([])
    else
      match FormatEach(pieces[..|pieces| - 1], rom)
      case None => None
      case Some(front) =>
        match Format(pieces[|pieces| - 1], rom)
        case None => None
        case Some(arg) => Some(front + [arg])
  }

  /** What `subproc_format(rom, command)` returns, or `None` where it raises. */
  function FormatArgs(rom: string, command: string): Option<seq<string>>
  {
    FormatEach(Split(command), rom)
  }

  /** The pieces with every piece that is exactly `{rom}` replaced by the ROM name. */
  function Substitute(pieces: seq<string>, rom: string): (r: seq<string>)
    ensures |r| == |pieces|
  {
    seq(|pieces|, i requires 0 <= i < |pieces| => if pieces[i] == "{rom}" then rom else pieces[i])
  }

  /** When exactly one piece is `{rom}` and the others have no braces, substitution
      replaces that piece alone. */
  lemma SubstituteSlot(pieces: seq<string>, k: nat, rom: string)
    requires k < |pieces| && pieces[k] == "{rom}"
    requires forall j :: 0 <= j < |pieces| && j != k ==> Braceless(pieces[j])
    ensures Substitute(pieces, rom) == pieces[k := rom]
  {
    assert '{' in "{rom}";
  }

  /** A brace-free prefix is copied unchanged in front of the formatted rest. */
  lemma {:induction false} FormatPrefix(p: string, s: string, rom: string)
    requires Braceless(p)
    ensures Format(p + s, rom) == Prepend(p, Format(s, rom))
    decreases |p|
  {
    if |p| == 0 {
      assert p + s == s;
      match Format(s, rom) {
        case None =>
        case Some(t) => assert p + t == t;
      }
    } else {
      assert p[0] in p;
      assert forall c :: c in p[1..] ==> c in p;
      assert (p + s)[0] == p[0];
      assert (p + s)[1..] == p[1..] + s;
      FormatPrefix(p[1..], s, rom);
      match Format(s, rom) {
        case None =>
        case Some(t) =>
          assert [p[0]] + (p[1..] + t) == p + t;
      }
    }
  }

  /** A piece without braces is unchanged by formatting. */
  lemma FormatBraceless(p: string, rom: string)
    requires Braceless(p)
    ensures Format(p, rom) == Some(p)
  {
    FormatPrefix(p, "", rom);
    assert p + "" == p;
  }

  /** A piece made of brace-free parts separated by `{rom}` is those parts separated by the
      ROM name, whatever characters (spaces, braces) the ROM name holds. */
  lemma {:induction false} FormatJoin(parts: seq<string>, rom: string)
    requires |parts| >= 1
    requires forall p :: p in parts ==> Braceless(p)
    ensures Format(Join(parts, "{rom}"), rom) == Some(Join(parts, rom))
  {
    assert parts[0] in parts;
    if |parts| == 1 {
      FormatBraceless(parts[0], rom);
    } else {
      assert forall p :: p in parts[1..] ==> p in parts;
      var tail := Join(parts[1..], "{rom}");
      FormatJoin(parts[1..], rom);
      var s := "{rom}" + tail;
      assert s[0] == '{' && s[1] == 'r';
      assert s[..5] == "{rom}";
      assert s[5..] == tail;
      assert Format(s, rom) == Some(rom + Join(parts[1..], rom));
      assert Join(parts, "{rom}") == parts[0] + s;
      FormatPrefix(parts[0], s, rom);
      assert parts[0] + (rom + Join(parts[1..], rom)) == Join(parts, rom);
    }
  }

  /** Formatting a list succeeds exactly when every piece formats, and then gives one
      argument per piece, in order. */
  lemma {:induction false} FormatEachAt(pieces: seq<string>, rom: string)
    ensures FormatEach(pieces, rom).Some? <==> forall i :: 0 <= i < |pieces| ==> Format(pieces[i], rom).Some?
    ensures FormatEach(pieces, rom).Some? ==>
      |FormatEach(pieces, rom).value| == |pieces| &&
      forall i :: 0 <= i < |pieces| ==> Format(pieces[i], rom) == Some(FormatEach(pieces, rom).value[i])
  {
    if |pieces| > 0 {
      var front := pieces[..|pieces| - 1];
      FormatEachAt(front, rom);
      assert forall i :: 0 <= i < |front| ==> front[i] == pieces[i];
    }
  }

  /** Pieces that are brace-free or exactly `{rom}` format to their substitution. */
  lemma FormatEachWords(pieces: seq<string>, rom: string)
    requires forall p :: p in pieces ==> Braceless(p) || p == "{rom}"
    ensures FormatEach(pieces, rom) == Some(Substitute(pieces, rom))
  {
    forall i | 0 <= i < |pieces|
      ensures Format(pieces[i], rom) == Some(Substitute(pieces, rom)[i])
    {
      assert pieces[i] in pieces;
      if pieces[i] == "{rom}" {
        assert forall p :: p in ["", ""] ==> p == "";
        FormatJoin(["", ""], rom);
        assert Join(["", ""], "{rom}") == "{rom}";
        assert Join(["", ""], rom) == rom;
      } else {
        FormatBraceless(pieces[i], rom);
      }
    }
    FormatEachAt(pieces, rom);
    assert FormatEach(pieces, rom).Some?;
    var v := FormatEach(pieces, rom).value;
    assert |v| == |pieces|;
    assert forall i :: 0 <= i < |pieces| ==> Some(v[i]) == Some(Substitute(pieces, rom)[i]);
    assert v == Substitute(pieces, rom);
  }

  /** A command whose words hold no space and no brace, behind the tool name, becomes
      exactly the tool name followed by those words, whatever the ROM name is. */
  lemma PlainCommandArgs(bin: string, words: seq<string>, rom: string)
    requires Plain(bin) && |words| >= 1
    requires forall w :: w in words ==> Plain(w)
    ensures FormatArgs(rom, bin + " " + JoinSpaces(words)) == Some([bin] + words)
  {
    var all := [bin] + words;
    assert all[1..] == words;
    assert JoinSpaces(all) == bin + " " + JoinSpaces(words);
    assert forall w :: w in all ==> Plain(w);
    SplitJoin(all);
    FormatEachWords(all, rom);
    forall i | 0 <= i < |all|
      ensures Substitute(all, rom)[i] == all[i]
    {
      assert all[i] in all;
      assert '{' in "{rom}";
    }
    assert Substitute(all, rom) == all;
    assert FormatArgs(rom, JoinSpaces(all)) == Some(all);
  }

  /** Formatting two lists one after the other is formatting their concatenation. */
  lemma {:induction false} FormatEachAppend(a: seq<string>, b: seq<string>, rom: string)
    ensures FormatEach(a + b, rom) ==
      match FormatEach(a, rom)
      case None => None
      case Some(x) => (match FormatEach(b, rom) case None => None case Some(y) => Some(x + y))
    decreases |b|
  {
    if |b| == 0 {
      assert a + b == a;
      match FormatEach(a, rom) {
        case None =>
        case Some(x) => assert x + [] == x;
      }
    } else {
      var b' := b[..|b| - 1];
      assert (a + b)[..|a + b| - 1] == a + b';
      assert (a + b)[|a + b| - 1] == b[|b| - 1];
      FormatEachAppend(a, b', rom);
      match FormatEach(a, rom) {
        case None =>
        case Some(x) =>
          match FormatEach(b', rom) {
            case None =>
            case Some(y) =>
              match Format(b[|b| - 1], rom) {
                case None =>
                case Some(z) => assert x + y + [z] == x + (y + [z]);
              }
          }
      }
    }
  }

  /** A trailing space in the template yields one trailing empty argument, and the
      arguments before it are those of the template without the space. */
  lemma FormatArgsTrailingSpace(rom: string, command: string)
    ensures FormatArgs(rom, command + " ") ==
      match FormatArgs(rom, command)
      case None => None
      case Some(x) => Some(x + [""])
  {
    SplitTrailingSpace(command);
    FormatEachAppend(Split(command), [""], rom);
    assert FormatEach([""], rom) == Some([""]) by {
      assert [""][..0] == [];
      assert Format("", rom) == Some("");
      assert [] + [""] == [""];
    }
  }

  /** `subproc_format`: split the template on spaces, then format each piece. */
  method SubprocFormat(rom: string, command: string) returns (out: Option<seq<string>>)
    ensures out == FormatArgs(rom, command)
  {
    var pieces := Split(command);
    var acc: seq<string> := [];
    var i := 0;
    while i < |pieces|
      invariant 0 <= i <= |pieces|
      invariant FormatEach(pieces[..i], rom) == Some(acc)
    {
      var arg := Format(pieces[i], rom);
      if arg.None? {
        FormatEachAt(pieces, rom);
        return None;
      }
      assert pieces[..i + 1][..i] == pieces[..i];
      acc := acc + [arg.value];
      i := i + 1;
    }
    assert pieces[..i] == pieces;
    out := Some(acc);
  }
}
