/**
 * The argument lists that `extract` and `rebuild` hand to the packer tool
 * (LunaHack.py:110-116, 128-140, 204-216, 230-234). Every builder is a function of the
 * ordered partition map and of the directory prefix (`original/` in the program).
 */
module Commands {
  import opened Wrappers
  import opened Text
  import opened Templating

  /** One entry of the partition map: the key used in flags and file names, and the
      partition's logical name. */
  datatype Partition = Partition(id: string, name: string)

  /** The program's partition map, in insertion order. */
  const PartitionMap: seq<Partition> := [
    Partition("0", ""),
    Partition("1", "Manual"),
    Partition("2", "DownloadPlay"),
    Partition("6", "N3DSUpdate"),
    Partition("7", "O3DSUpdate")
  ]

  predicate PlainIds(parts: seq<Partition>)
  {
    forall p :: p in parts ==> Plain(p.id)
  }

  predicate PlainNames(parts: seq<Partition>)
  {
    forall p :: p in parts ==> Plain(p.name)
  }

  /** The words `-<id> <path><stem><id>.bin`, one pair per partition, in map order. */
  function BlobArgs(path: string, stem: string, parts: seq<Partition>): (r: seq<string>)
    ensures |r| == 2 * |parts|
    ensures forall i :: 0 <= i < |parts| ==>
      r[2 * i] == "-" + parts[i].id && r[2 * i + 1] == path + stem + parts[i].id + ".bin"
  {
    if |parts| == 0 then []
    else
      var last := parts[|parts| - 1];
      BlobArgs(path, stem, parts[..|parts| - 1]) + ["-" + last.id, path + stem + last.id + ".bin"]
  }

  /** The words of an image-level command (`-xtf 3ds` or `-ctf 3ds`) before formatting:
      the `{rom}` slot, the header blob and one pair per partition. */
  function ImageWords(mode: string, path: string, stem: string, parts: seq<Partition>): seq<string>
  {
    [mode, "3ds", "{rom}", "--header", path + "HeaderNCCH.bin"] + BlobArgs(path, stem, parts)
  }

  /** The argument vector an image-level command is meant to become. */
  function ImageArgv(bin: string, mode: string, rom: string, path: string, stem: string,
                     parts: seq<Partition>): seq<string>
  {
    [bin, mode, "3ds", rom, "--header", path + "HeaderNCCH.bin"] + BlobArgs(path, stem, parts)
  }

  /** The layout of an image-level argument vector: six leading words, then the flag and
      blob of each partition at positions `6 + 2i` and `7 + 2i`; no word is empty when the
      tool name, the mode and the ROM name are not. */
  lemma ImageArgvLayout(bin: string, mode: string, rom: string, path: string, stem: string,
                        parts: seq<Partition>)
    ensures var argv := ImageArgv(bin, mode, rom, path, stem, parts);
      |argv| == 6 + 2 * |parts| &&
      argv[..6] == [bin, mode, "3ds", rom, "--header", path + "HeaderNCCH.bin"] &&
      forall i :: 0 <= i < |parts| ==>
        argv[6 + 2 * i] == "-" + parts[i].id && argv[7 + 2 * i] == path + stem + parts[i].id + ".bin"
    ensures bin != "" && mode != "" && rom != "" ==>
      forall a :: a in ImageArgv(bin, mode, rom, path, stem, parts) ==> a != ""
  {
    var argv := ImageArgv(bin, mode, rom, path, stem, parts);
    var blobs := BlobArgs(path, stem, parts);
    assert forall k :: 6 <= k < |argv| ==> argv[k] == blobs[k - 6];
    if bin != "" && mode != "" && rom != "" {
      forall a | a in argv ensures a != "" {
        var k :| 0 <= k < |argv| && argv[k] == a;
        if k >= 6 {
          var i := (k - 6) / 2;
          if k % 2 == 0 { assert a == blobs[2 * i]; } else { assert a == blobs[2 * i + 1]; }
        }
      }
    }
  }

  lemma ImageWordsStart(mode: string, path: string, stem: string)
    ensures JoinSpaces(ImageWords(mode, path, stem, [])) ==
      mode + " 3ds {rom} --header " + path + "HeaderNCCH.bin"
  {
    var h := path + "HeaderNCCH.bin";
    var tail := " " + ("3ds" + " " + ("{rom}" + " " + ("--header" + " " + h)));
    assert JoinSpaces(ImageWords(mode, path, stem, [])) == mode + tail by {
      var w := ImageWords(mode, path, stem, []);
      assert w == [mode, "3ds", "{rom}", "--header", h];
      assert Join(w[4..], " ") == h;
      assert Join(w[3..], " ") == "--header" + " " + h;
      assert Join(w[2..], " ") == "{rom}" + " " + ("--header" + " " + h);
      assert Join(w[1..], " ") == "3ds" + " " + ("{rom}" + " " + ("--header" + " " + h));
    }
    assert tail == " 3ds {rom} --header " + h by {
      var gaps := " " + "3ds" + " " + "{rom}" + " " + "--header" + " ";
      assert gaps == " 3ds {rom} --header ";
    }
  }

  /** Adding a partition to the map appends its pair, each word after one space. */
  lemma ImageWordsStep(mode: string, path: string, stem: string, parts: seq<Partition>, i: nat)
    requires i < |parts|
    ensures JoinSpaces(ImageWords(mode, path, stem, parts[..i + 1])) ==
      JoinSpaces(ImageWords(mode, path, stem, parts[..i])) + " -" + parts[i].id + " " +
      path + stem + parts[i].id + ".bin"
  {
    var before := ImageWords(mode, path, stem, parts[..i]);
    var a := "-" + parts[i].id;
    var b := path + stem + parts[i].id + ".bin";
    assert parts[..i + 1][..i] == parts[..i];
    assert ImageWords(mode, path, stem, parts[..i + 1]) == before + [a] + [b];
    JoinAppend(before, " ", a);
    JoinAppend(before + [a], " ", b);
  }

  lemma BlobArgsPlain(path: string, stem: string, parts: seq<Partition>)
    requires Plain(path) && Plain(stem) && PlainIds(parts)
    ensures forall w :: w in BlobArgs(path, stem, parts) ==> Plain(w)
  {
    var r := BlobArgs(path, stem, parts);
    forall w | w in r ensures Plain(w) {
      var k :| 0 <= k < |r| && r[k] == w;
      assert parts[k / 2] in parts;
      if k % 2 == 0 {
        assert w == r[2 * (k / 2)];
      } else {
        assert w == r[2 * (k / 2) + 1];
      }
    }
  }

  /** The words of an image-level command line behind the tool name: only the `{rom}`
      slot holds braces, and no word holds a space. */
  lemma ImageLineWords(bin: string, mode: string, path: string, stem: string, parts: seq<Partition>)
    requires Plain(bin) && Plain(mode) && Plain(path) && Plain(stem) && PlainIds(parts)
    ensures var w := [bin] + ImageWords(mode, path, stem, parts);
      w[3] == "{rom}" && forall k :: 0 <= k < |w| && k != 3 ==> Plain(w[k])
  {
    var w := [bin] + ImageWords(mode, path, stem, parts);
    var blobs := BlobArgs(path, stem, parts);
    BlobArgsPlain(path, stem, parts);
    assert Plain("3ds") && Plain("--header");
    assert Plain(path + "HeaderNCCH.bin");
    forall k | 6 <= k < |w| ensures Plain(w[k]) {
      assert w[k] == blobs[k - 6];
      assert blobs[k - 6] in blobs;
    }
  }

  /** Splitting and formatting an image-level template gives its intended argument vector:
      the ROM name fills exactly the `{rom}` slot, even when it holds spaces or braces. */
  lemma ImageTemplateArgv(bin: string, mode: string, rom: string, path: string, stem: string,
                          parts: seq<Partition>)
    requires Plain(bin) && Plain(mode) && Plain(path) && Plain(stem) && PlainIds(parts)
    ensures FormatArgs(rom, bin + " " + JoinSpaces(ImageWords(mode, path, stem, parts))) ==
      Some(ImageArgv(bin, mode, rom, path, stem, parts))
  {
    var w := [bin] + ImageWords(mode, path, stem, parts);
    assert Split(bin + " " + JoinSpaces(ImageWords(mode, path, stem, parts))) == w by {
      assert w[1..] == ImageWords(mode, path, stem, parts);
      assert JoinSpaces(w) == bin + " " + JoinSpaces(ImageWords(mode, path, stem, parts));
      ImageLineWords(bin, mode, path, stem, parts);
      assert forall x :: x in w ==> NoSpace(x);
      SplitJoin(w);
    }
    assert FormatEach(w, rom) == Some(w[3 := rom]) by {
      ImageLineWords(bin, mode, path, stem, parts);
      assert forall x :: x in w ==> Braceless(x) || x == "{rom}";
      FormatEachWords(w, rom);
      SubstituteSlot(w, 3, rom);
    }
    assert w[3 := rom] == ImageArgv(bin, mode, rom, path, stem, parts);
  }

  /** The shared loop of `extract` and `rebuild` that grows an image-level command by one
      `-<id> <path><stem><id>.bin ` pair per partition, each followed by a space. */
  method BuildImageCommand(mode: string, path: string, stem: string, parts: seq<Partition>)
    returns (cmd: string)
    ensures cmd == JoinSpaces(ImageWords(mode, path, stem, parts)) + " "
  {
    cmd := mode + " 3ds {rom} --header " + path + "HeaderNCCH.bin ";
    ImageWordsStart(mode, path, stem);
    assert parts[..0] == [];
    var i := 0;
    while i < |parts|
      invariant 0 <= i <= |parts|
      invariant cmd == JoinSpaces(ImageWords(mode, path, stem, parts[..i])) + " "
    {
      ImageWordsStep(mode, path, stem, parts, i);
      cmd := cmd + "-" + parts[i].id + " " + path + stem + parts[i].id + ".bin ";
      i := i + 1;
    }
    assert parts[..i] == parts;
  }

  // ---------------------------------------------------------------- extraction stage I

  /** Splitting the primary partition into its parts (`-xtf cxi`), word by word. */
  function CxiExtractWords(path: string, id: string): seq<string>
  {
    ["-xtf", "cxi", path + "DecryptedPartition" + id + ".bin", "--header", path + "HeaderNCCH" + id + ".bin",
     "--exh", path + "DecryptedExHeader.bin", "--exefs", path + "DecryptedExeFS.bin",
     "--romfs", path + "DecryptedRomFS.bin", "--logo", path + "LogoLZ.bin", "--plain", path + "PlainRGN.bin"]
  }

  /** Splitting a secondary partition into its header and `Decrypted<name>.bin` (`-xtf cfa`). */
  function CfaExtractWords(path: string, p: Partition): seq<string>
  {
    ["-xtf", "cfa", path + "DecryptedPartition" + p.id + ".bin", "--header", path + "HeaderNCCH" + p.id + ".bin",
     "--romfs", path + "Decrypted" + p.name + ".bin"]
  }

  function PartitionExtractWords(path: string, p: Partition): seq<string>
  {
    if p.id == "0" then CxiExtractWords(path, p.id) else CfaExtractWords(path, p)
  }

  /** The command line with single spaces between the words, as the f-string writes it. */
  function CxiExtract(path: string, id: string): string
  {
    JoinSpaces(CxiExtractWords(path, id))
  }

  function CfaExtract(path: string, p: Partition): string
  {
    JoinSpaces(CfaExtractWords(path, p))
  }

  function PartitionExtract(path: string, p: Partition): string
  {
    if p.id == "0" then CxiExtract(path, p.id) else CfaExtract(path, p)
  }

  /** The stage I extraction commands: the image split, then one command per partition. */
  function ExtractStage1(path: string, parts: seq<Partition>): seq<string>
  {
    [JoinSpaces(ImageWords("-xtf", path, "DecryptedPartition", parts))] +
    seq(|parts|, i requires 0 <= i < |parts| => PartitionExtract(path, parts[i]))
  }

  /** `extract`'s loops over the partition map (LunaHack.py:128-140). */
  method BuildExtractStage1(path: string, parts: seq<Partition>) returns (cmds: seq<string>)
    ensures cmds == ExtractStage1(path, parts)
  {
    var cmd := BuildImageCommand("-xtf", path, "DecryptedPartition", parts);
    var head := cmd[..|cmd| - 1];
    assert head == JoinSpaces(ImageWords("-xtf", path, "DecryptedPartition", parts));
    cmds := [head];
    var j := 0;
    while j < |parts|
      invariant 0 <= j <= |parts|
      invariant cmds == [head] + seq(j, k requires 0 <= k < j => PartitionExtract(path, parts[k]))
    {
      var part := parts[j];
      if part.id == "0" {
        cmd := CxiExtract(path, part.id);
      } else {
        cmd := CfaExtract(path, part);
      }
      cmds := cmds + [cmd];
      j := j + 1;
    }
  }

  /** One command per partition after the image split; the split names one
      `DecryptedPartition<id>.bin` per partition in map order and ends without a space;
      the primary partition gets the `cxi` command and every other the `cfa` command. */
  lemma ExtractStage1Shape(path: string, parts: seq<Partition>)
    ensures |ExtractStage1(path, parts)| == 1 + |parts|
    ensures var head := ExtractStage1(path, parts)[0];
      |head| > 0 && head[|head| - 1] != ' ' && head[|head| - 1] == 'n'
    ensures forall i :: 0 <= i < |parts| ==>
      (parts[i].id == "0" ==> ExtractStage1(path, parts)[i + 1] == CxiExtract(path, "0")) &&
      (parts[i].id != "0" ==> ExtractStage1(path, parts)[i + 1] == CfaExtract(path, parts[i]))
  {
    var head := ExtractStage1(path, parts)[0];
    assert |head| > 0 && head[|head| - 1] == 'n' by {
      var w := ImageWords("-xtf", path, "DecryptedPartition", parts);
      var last := w[|w| - 1];
      assert w == w[..|w| - 1] + [last];
      JoinAppend(w[..|w| - 1], " ", last);
      assert last[|last| - 1] == 'n';
    }
  }

  /** Run through `subproc_format` behind the tool name, the image split carries the ROM
      name as one argument and one `-<id> DecryptedPartition<id>.bin` pair per partition. */
  lemma ExtractStage1Argv(bin: string, rom: string, path: string, parts: seq<Partition>)
    requires Plain(bin) && Plain(path) && PlainIds(parts)
    ensures FormatArgs(rom, bin + " " + ExtractStage1(path, parts)[0]) ==
      Some(ImageArgv(bin, "-xtf", rom, path, "DecryptedPartition", parts))
  {
    ImageTemplateArgv(bin, "-xtf", rom, path, "DecryptedPartition", parts);
  }

  /** The literal parts of the extraction commands need no quoting. */
  lemma ExtractLiteralsPlain()
    ensures Plain("-xtf") && Plain("cxi") && Plain("cfa") && Plain("--header") && Plain("--exh")
    ensures Plain("--exefs") && Plain("--romfs") && Plain("--logo") && Plain("--plain") && Plain(".bin")
    ensures Plain("DecryptedPartition") && Plain("HeaderNCCH") && Plain("DecryptedExHeader.bin")
    ensures Plain("DecryptedExeFS.bin") && Plain("DecryptedRomFS.bin") && Plain("LogoLZ.bin")
    ensures Plain("PlainRGN.bin") && Plain("Decrypted")
  {
    PlainByChars("-xtf");
    PlainByChars("cxi");
    PlainByChars("cfa");
    PlainByChars("--header");
    PlainByChars("--exh");
    PlainByChars("--exefs");
    PlainByChars("--romfs");
    PlainByChars("--logo");
    PlainByChars("--plain");
    PlainByChars(".bin");
    PlainByChars("DecryptedPartition");
    PlainByChars("HeaderNCCH");
    PlainByChars("DecryptedExHeader.bin");
    PlainByChars("DecryptedExeFS.bin");
    PlainByChars("DecryptedRomFS.bin");
    PlainByChars("LogoLZ.bin");
    PlainByChars("PlainRGN.bin");
    PlainByChars("Decrypted");
  }

  /** With a plain prefix, key and name, every word of a partition's extraction command is
      plain. */
  lemma PartitionExtractWordsPlain(path: string, p: Partition)
    requires Plain(path) && Plain(p.id) && Plain(p.name)
    ensures forall w :: w in PartitionExtractWords(path, p) ==> Plain(w)
  {
    ExtractLiteralsPlain();
    var words := PartitionExtractWords(path, p);
    forall i | 0 <= i < |words|
      ensures Plain(words[i])
    {
    }
  }

  /** Run through `subproc_format` behind the tool name, each per-partition extraction
      command becomes the tool name followed by its words, whatever the ROM name is. */
  lemma ExtractStage1PartitionArgv(bin: string, rom: string, path: string, parts: seq<Partition>)
    requires Plain(bin) && Plain(path) && PlainIds(parts) && PlainNames(parts)
    ensures forall i :: 0 <= i < |parts| ==>
      FormatArgs(rom, bin + " " + ExtractStage1(path, parts)[i + 1]) ==
        Some([bin] + PartitionExtractWords(path, parts[i]))
  {
    forall i | 0 <= i < |parts|
      ensures FormatArgs(rom, bin + " " + ExtractStage1(path, parts)[i + 1]) ==
        Some([bin] + PartitionExtractWords(path, parts[i]))
    {
      var words := PartitionExtractWords(path, parts[i]);
      assert ExtractStage1(path, parts)[i + 1] == JoinSpaces(words);
      assert forall w :: w in words ==> Plain(w) by {
        assert parts[i] in parts;
        PartitionExtractWordsPlain(path, parts[i]);
      }
      PlainCommandArgs(bin, words, rom);
    }
  }

  // ---------------------------------------------------------------- rebuild stage II

  /** The partitions other than the primary one (`0`), in map order. */
  function SecondaryPartitions(parts: seq<Partition>): (r: seq<Partition>)
    ensures |r| <= |parts|
  {
    if |parts| == 0 then []
    else
      var last := parts[|parts| - 1];
      SecondaryPartitions(parts[..|parts| - 1]) + (if last.id == "0" then [] else [last])
  }

  /** Packing a secondary partition's unpacked tree back into `Custom<name>.bin`. */
  function RomfsBuildWords(path: string, p: Partition): seq<string>
  {
    ["-ctf", "romfs", path + "Custom" + p.name + ".bin", "--romfs-dir", path + "Extracted" + p.name]
  }

  /** Assembling the primary partition from its parts (`-ctf cxi`). */
  function CxiBuildWords(path: string, id: string): seq<string>
  {
    ["-ctf", "cxi", path + "CustomPartition" + id + ".bin", "--header", path + "HeaderNCCH" + id + ".bin",
     "--exh", path + "DecryptedExHeader.bin", "--exefs", path + "CustomExeFS.bin",
     "--romfs", path + "CustomRomFS.bin", "--logo", path + "LogoLZ.bin", "--plain", path + "PlainRGN.bin"]
  }

  /** Assembling a secondary partition from its header and `Custom<name>.bin` (`-ctf cfa`). */
  function CfaBuildWords(path: string, p: Partition): seq<string>
  {
    ["-ctf", "cfa", path + "CustomPartition" + p.id + ".bin", "--header", path + "HeaderNCCH" + p.id + ".bin",
     "--romfs", path + "Custom" + p.name + ".bin"]
  }

  function PartitionBuildWords(path: string, p: Partition): seq<string>
  {
    if p.id == "0" then CxiBuildWords(path, p.id) else CfaBuildWords(path, p)
  }

  function RomfsBuild(path: string, p: Partition): string
  {
    JoinSpaces(RomfsBuildWords(path, p))
  }

  function CxiBuild(path: string, id: string): string
  {
    JoinSpaces(CxiBuildWords(path, id))
  }

  function CfaBuild(path: string, p: Partition): string
  {
    JoinSpaces(CfaBuildWords(path, p))
  }

  function PartitionBuild(path: string, p: Partition): string
  {
    if p.id == "0" then CxiBuild(path, p.id) else CfaBuild(path, p)
  }

  function RomfsBuilds(path: string, ps: seq<Partition>): seq<string>
  {
    seq(|ps|, i requires 0 <= i < |ps| => RomfsBuild(path, ps[i]))
  }

  function PartitionBuilds(path: string, ps: seq<Partition>): seq<string>
  {
    seq(|ps|, i requires 0 <= i < |ps| => PartitionBuild(path, ps[i]))
  }

  /** A partition is secondary exactly when it is in the map and its key is not `0`. */
  lemma {:induction false} SecondaryPartitionsMembers(parts: seq<Partition>)
    ensures forall p :: p in SecondaryPartitions(parts) <==> p in parts && p.id != "0"
  {
    if |parts| > 0 {
      var front := parts[..|parts| - 1];
      SecondaryPartitionsMembers(front);
      assert parts == front + [parts[|parts| - 1]];
    }
  }

  /** With the primary partition first and nowhere else, the secondary partitions are all
      the others. */
  lemma {:induction false} SecondaryPartitionsAfterPrimary(parts: seq<Partition>)
    requires |parts| >= 1 && parts[0].id == "0"
    requires forall i :: 1 <= i < |parts| ==> parts[i].id != "0"
    ensures SecondaryPartitions(parts) == parts[1..]
  {
    if |parts| > 1 {
      var front := parts[..|parts| - 1];
      SecondaryPartitionsAfterPrimary(front);
      assert front[1..] + [parts[|parts| - 1]] == parts[1..];
    } else {
      assert parts[..0] == [];
    }
  }

  lemma SecondaryPartitionsStep(parts: seq<Partition>, i: nat)
    requires i < |parts|
    ensures SecondaryPartitions(parts[..i + 1]) ==
      SecondaryPartitions(parts[..i]) + (if parts[i].id == "0" then [] else [parts[i]])
  {
    assert parts[..i + 1][..i] == parts[..i];
  }

  lemma RomfsBuildsAppend(path: string, ps: seq<Partition>, p: Partition)
    ensures RomfsBuilds(path, ps + [p]) == RomfsBuilds(path, ps) + [RomfsBuild(path, p)]
  {
  }

  lemma PartitionBuildsStep(path: string, parts: seq<Partition>, j: nat)
    requires j < |parts|
    ensures PartitionBuilds(path, parts[..j + 1]) == PartitionBuilds(path, parts[..j]) + [PartitionBuild(path, parts[j])]
  {
  }

  /** The stage II rebuild commands: the romfs packs, then the partition assemblies. */
  function RebuildStage2(path: string, parts: seq<Partition>): seq<string>
  {
    RomfsBuilds(path, SecondaryPartitions(parts)) + PartitionBuilds(path, parts)
  }

  /** `rebuild`'s two loops over the partition map (LunaHack.py:204-216). */
  method BuildRebuildStage2(path: string, parts: seq<Partition>) returns (cmds: seq<string>)
    ensures cmds == RebuildStage2(path, parts)
  {
    cmds := [];
    var i := 0;
    while i < |parts|
      invariant 0 <= i <= |parts|
      invariant cmds == RomfsBuilds(path, SecondaryPartitions(parts[..i]))
    {
      var part := parts[i];
      SecondaryPartitionsStep(parts, i);
      if part.id != "0" {
        RomfsBuildsAppend(path, SecondaryPartitions(parts[..i]), part);
        cmds := cmds + [RomfsBuild(path, part)];
      } else {
        assert SecondaryPartitions(parts[..i]) + [] == SecondaryPartitions(parts[..i]);
      }
      i := i + 1;
    }
    assert parts[..i] == parts;
    var romfs := cmds;

    var j := 0;
    while j < |parts|
      invariant 0 <= j <= |parts|
      invariant cmds == romfs + PartitionBuilds(path, parts[..j])
    {
      var part := parts[j];
      var cmd;
      if part.id == "0" {
        cmd := CxiBuild(path, part.id);
      } else {
        cmd := CfaBuild(path, part);
      }
      PartitionBuildsStep(path, parts, j);
      cmds := cmds + [cmd];
      j := j + 1;
    }
    assert parts[..j] == parts;
  }

  /** The romfs packs come first, one per secondary partition and never one for the primary
      partition, followed by one assembly per partition, each group in map order. */
  lemma RebuildStage2Shape(path: string, parts: seq<Partition>)
    ensures var r := RebuildStage2(path, parts);
      var secondary := SecondaryPartitions(parts);
      |r| == |secondary| + |parts| &&
      (forall i :: 0 <= i < |secondary| ==> r[i] == RomfsBuild(path, secondary[i]) && secondary[i].id != "0") &&
      (forall i :: 0 <= i < |parts| ==> r[|secondary| + i] == PartitionBuild(path, parts[i]))
  {
    var secondary := SecondaryPartitions(parts);
    SecondaryPartitionsMembers(parts);
    assert forall i :: 0 <= i < |secondary| ==> secondary[i] in secondary;
  }

  /** The literal parts of the stage II commands need no quoting. */
  lemma BuildLiteralsPlain()
    ensures Plain("-ctf") && Plain("romfs") && Plain("cxi") && Plain("cfa") && Plain("--header")
    ensures Plain("--exh") && Plain("--exefs") && Plain("--romfs") && Plain("--logo") && Plain("--plain")
    ensures Plain("--romfs-dir") && Plain(".bin") && Plain("Custom") && Plain("Extracted")
    ensures Plain("CustomPartition") && Plain("HeaderNCCH") && Plain("DecryptedExHeader.bin")
    ensures Plain("CustomExeFS.bin") && Plain("CustomRomFS.bin") && Plain("LogoLZ.bin")
    ensures Plain("PlainRGN.bin")
  {
    PlainByChars("-ctf");
    PlainByChars("romfs");
    PlainByChars("cxi");
    PlainByChars("cfa");
    PlainByChars("--header");
    PlainByChars("--exh");
    PlainByChars("--exefs");
    PlainByChars("--romfs");
    PlainByChars("--logo");
    PlainByChars("--plain");
    PlainByChars("--romfs-dir");
    PlainByChars(".bin");
    PlainByChars("Custom");
    PlainByChars("Extracted");
    PlainByChars("CustomPartition");
    PlainByChars("HeaderNCCH");
    PlainByChars("DecryptedExHeader.bin");
    PlainByChars("CustomExeFS.bin");
    PlainByChars("CustomRomFS.bin");
    PlainByChars("LogoLZ.bin");
    PlainByChars("PlainRGN.bin");
  }

  /** With a plain prefix and name, every word of a romfs pack command is plain. */
  lemma RomfsBuildWordsPlain(path: string, p: Partition)
    requires Plain(path) && Plain(p.name)
    ensures forall w :: w in RomfsBuildWords(path, p) ==> Plain(w)
  {
    BuildLiteralsPlain();
    var words := RomfsBuildWords(path, p);
    forall i | 0 <= i < |words|
      ensures Plain(words[i])
    {
    }
  }

  /** With a plain prefix, key and name, every word of a partition's assembly command is
      plain. */
  lemma PartitionBuildWordsPlain(path: string, p: Partition)
    requires Plain(path) && Plain(p.id) && Plain(p.name)
    ensures forall w :: w in PartitionBuildWords(path, p) ==> Plain(w)
  {
    BuildLiteralsPlain();
    var words := PartitionBuildWords(path, p);
    forall i | 0 <= i < |words|
      ensures Plain(words[i])
    {
    }
  }

  /** A romfs pack command run behind the tool name becomes the tool name and its words. */
  lemma RomfsBuildArgv(bin: string, rom: string, path: string, p: Partition)
    requires Plain(bin) && Plain(path) && Plain(p.name)
    ensures FormatArgs(rom, bin + " " + RomfsBuild(path, p)) == Some([bin] + RomfsBuildWords(path, p))
  {
    RomfsBuildWordsPlain(path, p);
    PlainCommandArgs(bin, RomfsBuildWords(path, p), rom);
  }

  /** A partition assembly command run behind the tool name becomes the tool name and its
      words. */
  lemma PartitionBuildArgv(bin: string, rom: string, path: string, p: Partition)
    requires Plain(bin) && Plain(path) && Plain(p.id) && Plain(p.name)
    ensures FormatArgs(rom, bin + " " + PartitionBuild(path, p)) == Some([bin] + PartitionBuildWords(path, p))
  {
    assert PartitionBuild(path, p) == JoinSpaces(PartitionBuildWords(path, p));
    PartitionBuildWordsPlain(path, p);
    PlainCommandArgs(bin, PartitionBuildWords(path, p), rom);
  }

  /** Run through `subproc_format` behind the tool name, every stage II command becomes
      the tool name followed by its words, whatever the ROM name is: first the romfs packs
      of the secondary partitions, then the assemblies of all partitions, in map order. */
  lemma RebuildStage2Argv(bin: string, rom: string, path: string, parts: seq<Partition>)
    requires Plain(bin) && Plain(path) && PlainIds(parts) && PlainNames(parts)
    ensures var r := RebuildStage2(path, parts);
      var secondary := SecondaryPartitions(parts);
      (forall i :: 0 <= i < |secondary| ==>
        FormatArgs(rom, bin + " " + r[i]) == Some([bin] + RomfsBuildWords(path, secondary[i]))) &&
      (forall i :: 0 <= i < |parts| ==>
        FormatArgs(rom, bin + " " + r[|secondary| + i]) == Some([bin] + PartitionBuildWords(path, parts[i])))
  {
    var r := RebuildStage2(path, parts);
    var secondary := SecondaryPartitions(parts);
    RebuildStage2Shape(path, parts);
    forall i | 0 <= i < |secondary|
      ensures FormatArgs(rom, bin + " " + r[i]) == Some([bin] + RomfsBuildWords(path, secondary[i]))
    {
      assert secondary[i] in parts by {
        assert secondary[i] in secondary;
        SecondaryPartitionsMembers(parts);
      }
      RomfsBuildArgv(bin, rom, path, secondary[i]);
    }
    forall i | 0 <= i < |parts|
      ensures FormatArgs(rom, bin + " " + r[|secondary| + i]) == Some([bin] + PartitionBuildWords(path, parts[i]))
    {
      assert parts[i] in parts;
      PartitionBuildArgv(bin, rom, path, parts[i]);
    }
  }

  // ---------------------------------------------------------------- final assembly

  /** `lst[:-1]`: Python's slice drops the last element and leaves an empty list empty. */
  function DropLast(args: seq<string>): (r: seq<string>)
  {
    if |args| == 0 then [] else args[..|args| - 1]
  }

  /** The stage III template, `<bin> -ctf 3ds {rom} --header ... ` with one trailing space. */
  function AssemblyTemplate(bin: string, path: string, parts: seq<Partition>): string
  {
    bin + " " + JoinSpaces(ImageWords("-ctf", path, "CustomPartition", parts)) + " "
  }

  /** The argument vector of the final assembly: the formatted template minus its last
      argument. */
  function AssemblyArgv(bin: string, path: string, parts: seq<Partition>, optRom: string): Option<seq<string>>
  {
    match FormatArgs(optRom, AssemblyTemplate(bin, path, parts))
    case None => None
    case Some(args) => Some(DropLast(args))
  }

  /** The final assembly of `rebuild` (LunaHack.py:230-234). */
  method BuildAssemblyArgv(bin: string, path: string, parts: seq<Partition>, optRom: string)
    returns (argv: Option<seq<string>>)
    ensures argv == AssemblyArgv(bin, path, parts, optRom)
  {
    var cmd := BuildImageCommand("-ctf", path, "CustomPartition", parts);
    var args := SubprocFormat(optRom, bin + " " + cmd);
    assert bin + " " + cmd == AssemblyTemplate(bin, path, parts);
    match args {
      case None => argv := None;
      case Some(a) => argv := Some(DropLast(a));
    }
  }

  /** The template's trailing space yields a last argument that is empty, and dropping it
      leaves exactly the arguments of the template without that space. */
  lemma AssemblyDropsOnlyTrailingEmpty(bin: string, path: string, parts: seq<Partition>, optRom: string)
    ensures FormatArgs(optRom, AssemblyTemplate(bin, path, parts)).Some? ==>
      var args := FormatArgs(optRom, AssemblyTemplate(bin, path, parts)).value;
      |args| >= 1 && args[|args| - 1] == ""
    ensures AssemblyArgv(bin, path, parts, optRom) ==
      FormatArgs(optRom, bin + " " + JoinSpaces(ImageWords("-ctf", path, "CustomPartition", parts)))
  {
    var base := bin + " " + JoinSpaces(ImageWords("-ctf", path, "CustomPartition", parts));
    FormatArgsTrailingSpace(optRom, base);
    match FormatArgs(optRom, base) {
      case None =>
      case Some(x) => assert (x + [""])[..|x|] == x;
    }
  }

  /** With the program's plain tool name, prefix and partition keys, the final argument
      vector is the tool, `-ctf 3ds`, the output ROM name as one argument, the header and one
      `-<id> CustomPartition<id>.bin` pair per partition in map order. */
  lemma AssemblyArgvPlain(bin: string, path: string, parts: seq<Partition>, optRom: string)
    requires Plain(bin) && Plain(path) && PlainIds(parts)
    ensures AssemblyArgv(bin, path, parts, optRom) ==
      Some(ImageArgv(bin, "-ctf", optRom, path, "CustomPartition", parts))
  {
    AssemblyDropsOnlyTrailingEmpty(bin, path, parts, optRom);
    ImageTemplateArgv(bin, "-ctf", optRom, path, "CustomPartition", parts);
  }
}
