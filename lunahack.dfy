/**
 * The session object of the program (LunaHack.py:103-121, 238-254) and the facts about
 * the commands it builds from its own constants.
 */
module LunaHack {
  import opened Wrappers
  import opened Text
  import opened Discovery
  import opened Templating
  import opened Commands

  class Session {
    /** The extraction directory, used as the prefix of every blob path. */
    const original: string := "original/"
    /** The packer tool, the first argument of every command it runs. */
    const bin: string := "3dstool.exe"
    const partitions: seq<Partition> := PartitionMap

    /** The discovered ROM names, in listing order. */
    var roms: seq<string>
    /** The selected ROM and the name of the image the rebuild writes. */
    var rom: string
    var optRom: string

    /** Discovery over the entries of the working directory. */
    constructor (listing: seq<string>)
      ensures roms == RomCandidates(listing)
      ensures rom == "" && optRom == ""
    {
      var found := DiscoverRoms(listing);
      roms := found;
      rom := "";
      optRom := "";
    }

    /** `obtain_rom`: `pick` is the prompt's answer, shown only when there are several
        candidates. With no candidate the program exits and nothing is set. */
    method ObtainRom(pick: nat) returns (exited: bool)
      requires |roms| > 1 ==> pick < |roms|
      modifies this`rom, this`optRom
      ensures exited <==> roms == []
      ensures exited ==> rom == old(rom) && optRom == old(optRom)
      ensures !exited ==> SelectRom(roms, pick) == Some(rom) && optRom == OutputName(rom)
    {
      if |roms| == 0 {
        return true;
      } else if |roms| == 1 {
        rom := roms[0];
      } else {
        rom := roms[pick];
      }
      optRom := OutputName(rom);
      exited := false;
    }

    /** The final assembly of `rebuild`, for the selected ROM's output name. */
    method AssemblyCommand() returns (argv: Option<seq<string>>)
      ensures argv == Some(ImageArgv(bin, "-ctf", optRom, original, "CustomPartition", partitions))
    {
      argv := BuildAssemblyArgv(bin, original, partitions, optRom);
      SessionConstantsPlain();
      AssemblyArgvPlain(bin, original, partitions, optRom);
    }
  }

  /** The tool name, the prefix and the partition keys need no quoting. */
  lemma SessionConstantsPlain()
    ensures Plain("3dstool.exe") && Plain("original/") && PlainIds(PartitionMap)
  {
    assert forall p :: p in PartitionMap ==> p.id in {"0", "1", "2", "6", "7"};
  }

  /** The partition names hold no space and no brace. */
  lemma PartitionNamesPlain()
    ensures PlainNames(PartitionMap)
  {
    PlainByChars("Manual");
    PlainByChars("DownloadPlay");
    PlainByChars("N3DSUpdate");
    PlainByChars("O3DSUpdate");
    assert forall p :: p in PartitionMap ==> p.name in {"", "Manual", "DownloadPlay", "N3DSUpdate", "O3DSUpdate"};
  }

  /** The partition keys in map order. */
  lemma PartitionMapOrder()
    ensures |PartitionMap| == 5
    ensures PartitionMap[0].id == "0" && PartitionMap[1].id == "1" && PartitionMap[2].id == "2"
    ensures PartitionMap[3].id == "6" && PartitionMap[4].id == "7"
  {
  }

  /** The extraction's first command, run through `subproc_format` behind the tool name:
      the ROM name as one argument, the header, then the five `DecryptedPartition` blobs in
      the order 0, 1, 2, 6, 7. */
  lemma SessionExtractStage1(rom: string)
    ensures |ExtractStage1("original/", PartitionMap)| == 6
    ensures var argv := FormatArgs(rom, "3dstool.exe" + " " + ExtractStage1("original/", PartitionMap)[0]);
      argv.Some? && |argv.value| == 16 &&
      argv.value[..6] == ["3dstool.exe", "-xtf", "3ds", rom, "--header", "original/" + "HeaderNCCH.bin"] &&
      forall i :: 0 <= i < 5 ==>
        argv.value[6 + 2 * i] == "-" + PartitionMap[i].id &&
        argv.value[7 + 2 * i] == "original/" + "DecryptedPartition" + PartitionMap[i].id + ".bin"
  {
    assert |ExtractStage1("original/", PartitionMap)| == 6 by {
      ExtractStage1Shape("original/", PartitionMap);
    }
    assert FormatArgs(rom, "3dstool.exe" + " " + ExtractStage1("original/", PartitionMap)[0]) ==
      Some(ImageArgv("3dstool.exe", "-xtf", rom, "original/", "DecryptedPartition", PartitionMap)) by {
      SessionConstantsPlain();
      ExtractStage1Argv("3dstool.exe", rom, "original/", PartitionMap);
    }
    ImageArgvLayout("3dstool.exe", "-xtf", rom, "original/", "DecryptedPartition", PartitionMap);
    assert |PartitionMap| == 5;
  }

  /** The rebuild's stage II list: 4 romfs packs (Manual, DownloadPlay, N3DSUpdate,
      O3DSUpdate, none for the primary partition) and 5 partition assemblies. */
  lemma SessionRebuildStage2()
    ensures |RebuildStage2("original/", PartitionMap)| == 9
    ensures forall i :: 0 <= i < 4 ==>
      RebuildStage2("original/", PartitionMap)[i] == RomfsBuild("original/", PartitionMap[i + 1])
    ensures forall i :: 0 <= i < 5 ==>
      RebuildStage2("original/", PartitionMap)[4 + i] == PartitionBuild("original/", PartitionMap[i])
  {
    SecondaryPartitionsAfterPrimary(PartitionMap);
  }

  /** The final assembly for the output name: the output name as one argument in the
      `{rom}` slot, the five `CustomPartition` blobs in the order 0, 1, 2, 6, 7, and no
      empty argument. */
  lemma SessionAssemblyArgv(rom: string)
    ensures var argv := AssemblyArgv("3dstool.exe", "original/", PartitionMap, OutputName(rom));
      argv.Some? && |argv.value| == 16 &&
      argv.value[..6] == ["3dstool.exe", "-ctf", "3ds", OutputName(rom), "--header", "original/" + "HeaderNCCH.bin"] &&
      (forall i :: 0 <= i < 5 ==>
        argv.value[6 + 2 * i] == "-" + PartitionMap[i].id &&
        argv.value[7 + 2 * i] == "original/" + "CustomPartition" + PartitionMap[i].id + ".bin") &&
      forall a :: a in argv.value ==> a != ""
  {
    assert AssemblyArgv("3dstool.exe", "original/", PartitionMap, OutputName(rom)) ==
      Some(ImageArgv("3dstool.exe", "-ctf", OutputName(rom), "original/", "CustomPartition", PartitionMap)) by {
      SessionConstantsPlain();
      AssemblyArgvPlain("3dstool.exe", "original/", PartitionMap, OutputName(rom));
    }
    ImageArgvLayout("3dstool.exe", "-ctf", OutputName(rom), "original/", "CustomPartition", PartitionMap);
    assert |PartitionMap| == 5;
  }
}
