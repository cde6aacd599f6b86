/**
 * ROM discovery, selection and output naming (LunaHack.py:118-121, 238-254).
 */
module Discovery {
  import opened Wrappers
  import opened Text

  /** The discovery test of one directory entry: its lower-cased name ends in `.3ds`
      but not in `_modded.3ds`. */
  predicate IsRomName(name: string)
  {
    EndsWith(Lower(name), ".3ds") && !EndsWith(Lower(name), "_modded.3ds")
  }

  /** The test ignores letter case: a name and its lower-cased form get the same verdict. */
  lemma RomNameCaseInsensitive(name: string)
    ensures IsRomName(Lower(name)) <==> IsRomName(name)
  {
    LowerIdempotent(name);
  }

  /** The entries of a directory listing that pass the discovery test, in listing order. */
  function RomCandidates(listing: seq<string>): (r: seq<string>)
    ensures |r| <= |listing|
  {
    if |listing| == 0 then []
    else
      var last := listing[|listing| - 1];
      RomCandidates(listing[..|listing| - 1]) + (if IsRomName(last) then [last] else [])
  }

  /** A name is a candidate exactly when it is listed and passes the test. */
  lemma {:induction false} RomCandidatesMembers(listing: seq<string>)
    ensures forall x :: x in RomCandidates(listing) <==> x in listing && IsRomName(x)
  {
    if |listing| > 0 {
      var front := listing[..|listing| - 1];
      RomCandidatesMembers(front);
      assert listing == front + [listing[|listing| - 1]];
    }
  }

  /** Discovery over two listings one after the other keeps the order of both. */
  lemma {:induction false} RomCandidatesAppend(a: seq<string>, b: seq<string>)
    ensures RomCandidates(a + b) == RomCandidates(a) + RomCandidates(b)
    decreases |b|
  {
    if |b| == 0 {
      assert a + b == a;
    } else {
      var b' := b[..|b| - 1];
      assert (a + b)[..|a + b| - 1] == a + b';
      RomCandidatesAppend(a, b');
    }
  }

  /** The discovery loop of `Session.__init__`: append every entry that passes the test. */
  method DiscoverRoms(listing: seq<string>) returns (roms: seq<string>)
    ensures roms == RomCandidates(listing)
  {
    roms := [];
    var i := 0;
    while i < |listing|
      invariant 0 <= i <= |listing|
      invariant roms == RomCandidates(listing[..i])
    {
      var file := listing[i];
      assert listing[..i + 1][..i] == listing[..i];
      if IsRomName(file) {
        roms := roms + [file];
      }
      i := i + 1;
    }
    assert listing[..i] == listing;
  }

  /** `rom[:-4] + "_modded.3ds"`; Python's slice gives the empty string on a name shorter
      than four characters. */
  function OutputName(rom: string): string
  {
    (if |rom| >= 4 then rom[..|rom| - 4] else "") + "_modded.3ds"
  }

  /** For a discovered ROM, the output name keeps everything before the four-character
      extension (which lower-cases to `.3ds`) and replaces the extension by `_modded.3ds`. */
  lemma OutputNameReplacesExtension(rom: string)
    requires IsRomName(rom)
    ensures |rom| >= 4 && Lower(rom[|rom| - 4..]) == ".3ds"
    ensures EndsWith(OutputName(rom), "_modded.3ds")
    ensures OutputName(rom)[..|OutputName(rom)| - 11] + rom[|rom| - 4..] == rom
  {
    var n := |rom|;
    assert Lower(rom[n - 4..]) == Lower(rom)[n - 4..];
    var out := OutputName(rom);
    assert out[..|out| - 11] == rom[..n - 4];
  }

  /** No output name is ever a discovery candidate, whatever the input name. */
  lemma OutputNameRejected(rom: string)
    ensures !IsRomName(OutputName(rom))
  {
    var stem := if |rom| >= 4 then rom[..|rom| - 4] else "";
    LowerConcat(stem, "_modded.3ds");
    assert Lower("_modded.3ds") == "_modded.3ds";
    var low := Lower(OutputName(rom));
    assert low[|low| - 11..] == "_modded.3ds";
  }

  /** A rerun in a directory that also holds the output image discovers the same ROMs. */
  lemma RerunIgnoresOutput(listing: seq<string>, rom: string)
    ensures RomCandidates(listing + [OutputName(rom)]) == RomCandidates(listing)
  {
    RomCandidatesAppend(listing, [OutputName(rom)]);
    OutputNameRejected(rom);
    assert [OutputName(rom)][..0] == [];
  }

  lemma OutputNameExample()
    ensures OutputName("game.3ds") == "game_modded.3ds"
  {
  }

  /** `obtain_rom`'s rule: no candidate selects nothing (the program exits), a single
      candidate is taken, and otherwise the prompt's answer `pick` is taken. */
  function SelectRom(roms: seq<string>, pick: nat): (r: Option<string>)
    requires |roms| > 1 ==> pick < |roms|
    ensures r.None? <==> |roms| == 0
    ensures |roms| == 1 ==> r == Some(roms[0])
    ensures r.Some? ==> r.value in roms
  {
    if |roms| == 0 then None
    else if |roms| == 1 then Some(roms[0])
    else Some(roms[pick])
  }

  /** The selected ROM is a listed entry that passes the discovery test, and its output
      name does not. */
  lemma SelectedFromListing(listing: seq<string>, pick: nat)
    requires |RomCandidates(listing)| > 1 ==> pick < |RomCandidates(listing)|
    ensures SelectRom(RomCandidates(listing), pick).Some? ==>
      var rom := SelectRom(RomCandidates(listing), pick).value;
      rom in listing && IsRomName(rom) && !IsRomName(OutputName(rom))
  {
    RomCandidatesMembers(listing);
    if SelectRom(RomCandidates(listing), pick).Some? {
      OutputNameRejected(SelectRom(RomCandidates(listing), pick).value);
    }
  }
}
