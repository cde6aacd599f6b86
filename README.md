# LunaHack command and naming model

LunaHack unpacks a Nintendo 3DS ROM image with the external packer `3dstool.exe`, lets the
user edit the unpacked tree with `pk3DS.exe`, and packs the tree back into
`<name>_modded.3ds`. Nearly all of the work is done by those two external programs; what
the script decides itself is which ROM it works on, what the output is called, which
argument vectors it hands to the packer, and which regenerated blobs it deletes. That
logic, all in `LunaHack.py`, is modelled here:

- `Text`: Python's `str.split(" ")` (empty pieces kept), joining with spaces, ASCII
  `str.lower`, prefix and suffix tests, with the split/join round trip proved both ways.
- `Templating`: `subproc_format`, which splits a command template on single spaces and then
  runs `str.format(rom=...)` on every piece. Because splitting comes first, a ROM name with
  spaces or braces always stays one argument.
- `Discovery`: the `.3ds` / `_modded.3ds` filter over a directory listing, the
  zero/one/many selection rule of `obtain_rom`, and the output name `rom[:-4] + "_modded.3ds"`.
  No output name ever passes the filter, so a rerun never picks up its own output.
- `Commands`: the ordered partition map (0, 1, 2, 6, 7) and the commands built from it by
  `extract` (stage I) and `rebuild` (stage II and the final image assembly). Each builder is
  a loop that is proved equal to a declarative definition. Lemmas then give counts, order,
  and the absence of a trailing space or empty argument. They also give the argument vector
  each command becomes once `subproc_format` runs it behind the tool name. In the image
  split and the final assembly, the ROM name or output name fills the `{rom}` slot as one
  argument. Every per-partition command of stage I and stage II becomes the tool name
  followed by that command's own words, whatever the ROM name is.
- `Cleanup`: the pass after stage II of `rebuild`. It deletes exactly the `Custom*.bin`
  entries of at most 20000 bytes. The directory is modelled as a map from name to size.
- `LunaHack`: the `Session` object. The constructor runs discovery, `ObtainRom` sets the
  selected ROM and output name, and lemmas instantiate the builders with the session's
  constants (`3dstool.exe`, `original/`, the partition map).

The final assembly names `CustomPartition<id>.bin` for every partition. It does so whether
or not the cleanup pass has just deleted that blob: the argument vector does not depend on
the directory at all.

Where the documented design of the tool and its code differ, the model follows the code:

- The output name always ends in a lower-case `_modded.3ds`. The original extension is not
  kept, so `Game.3DS` becomes `Game_modded.3ds`.
- The cleanup deletes every `Custom*.bin` entry of at most 20000 bytes, not only partition
  blobs. `CustomRomFS.bin`, `CustomExeFS.bin` and `Custom<name>.bin` are deleted too.
- The documented design has a content fingerprint, a cache-validity check and a
  reconciliation ("unstage") walk. None of them occurs in `LunaHack.py`, so none is modelled.

## Model

| member | source | states |
|---|---|---|
| Text.Split | LunaHack.py:44 | `str.split(" ")` always yields at least one piece |
| Text.JoinSplit | LunaHack.py:44 | joining the pieces of a split with single spaces gives back the original string |
| Text.SplitJoin | LunaHack.py:44 | splitting space-free words joined by single spaces gives back the words |
| Text.SplitPiecesHaveNoSpace | LunaHack.py:44 | no piece of a split holds a space |
| Text.SplitNoSpace | LunaHack.py:44 | a string without spaces is a single argument |
| Text.SplitAtSpace | LunaHack.py:44 | a space splits a string into the pieces of its two sides |
| Text.SplitTrailingSpace | LunaHack.py:44 | a trailing space adds exactly one empty piece at the end |
| Text.SplitPiecesBraceless | LunaHack.py:44 | the pieces of a brace-free template are brace-free |
| Text.JoinAppend | LunaHack.py:132 | appending a word appends one separator and that word |
| Templating.FormatPrefix | LunaHack.py:47 | `str.format` copies a brace-free prefix unchanged |
| Templating.FormatBraceless | LunaHack.py:47 | a piece without `{rom}` (or any brace) is unchanged by formatting |
| Templating.FormatJoin | LunaHack.py:47 | every `{rom}` in a piece becomes the ROM name and the text around it is kept, whatever the ROM name holds |
| Templating.SubstituteSlot | LunaHack.py:45-49 | with one `{rom}` piece, substitution replaces that piece alone |
| Templating.FormatEachAt | LunaHack.py:45-49 | formatting succeeds exactly when each piece formats, and then gives one argument per piece, in order |
| Templating.FormatEachWords | LunaHack.py:45-49 | pieces that are brace-free or exactly `{rom}` format to their substitution |
| Templating.FormatEachAppend | LunaHack.py:45-49 | formatting a concatenation is formatting each part |
| Templating.FormatArgsTrailingSpace | LunaHack.py:42-49 | a trailing space in a template yields one trailing empty argument and leaves the others as without it |
| Templating.PlainCommandArgs | LunaHack.py:42-49 | a command of words without spaces or braces, behind the tool name, becomes exactly the tool name followed by those words, whatever the ROM name |
| Templating.SubprocFormat | LunaHack.py:42-49 | the loop returns the formatted pieces of the split template, or fails where `str.format` raises |
| Discovery.RomCandidates | LunaHack.py:118-121 | discovery keeps at most the listed entries |
| Discovery.RomNameCaseInsensitive | LunaHack.py:120 | the discovery test ignores letter case: a name and its lower-cased form get the same verdict |
| Discovery.RomCandidatesMembers | LunaHack.py:118-121 | a name is a candidate exactly when it is listed and its lower-cased name ends in `.3ds` but not `_modded.3ds` |
| Discovery.RomCandidatesAppend | LunaHack.py:118-121 | discovery keeps listing order: the candidates of two listings in a row are those of the first, then those of the second |
| Discovery.DiscoverRoms | LunaHack.py:118-121 | the discovery loop appends exactly the candidates, in listing order |
| Discovery.OutputNameReplacesExtension | LunaHack.py:254 | for a discovered ROM the output name is its name with the four-character `.3ds` extension (any case) replaced by `_modded.3ds` |
| Discovery.OutputNameRejected | LunaHack.py:254 | no output name passes the discovery filter |
| Discovery.RerunIgnoresOutput | LunaHack.py:118-121 | adding the output image to the directory leaves the candidates unchanged |
| Discovery.OutputNameExample | LunaHack.py:254 | `game.3ds` gives `game_modded.3ds` |
| Discovery.SelectRom | LunaHack.py:238-253 | nothing is selected exactly when there is no candidate; a single candidate is selected; a selection is always a candidate |
| Discovery.SelectedFromListing | LunaHack.py:238-254 | the selected ROM is a listed entry that passes the filter, and its output name does not |
| Commands.BlobArgs | LunaHack.py:131-132 | one `-<id>` flag and one `<path><stem><id>.bin` blob per partition, in map order |
| Commands.ImageArgvLayout | LunaHack.py:230-234 | an image-level argument vector has six leading words, then each partition's flag and blob at positions 6+2i and 7+2i, and no empty word |
| Commands.ImageWordsStart | LunaHack.py:130 | the literal start of an image-level command is its first five words joined by spaces |
| Commands.ImageWordsStep | LunaHack.py:131-132 | each loop step appends the partition's flag and blob, each after one space |
| Commands.BlobArgsPlain | LunaHack.py:131-132 | with plain keys and prefix, the flag and blob words need no quoting |
| Commands.ImageLineWords | LunaHack.py:157 | in an image-level command line only the `{rom}` slot holds braces, and no word holds a space |
| Commands.ImageTemplateArgv | LunaHack.py:157 | splitting and formatting an image-level template yields its words with the ROM name in the `{rom}` slot |
| Commands.BuildImageCommand | LunaHack.py:130-132 | the header loop builds the command words joined by spaces, plus one trailing space |
| Commands.BuildExtractStage1 | LunaHack.py:128-140 | the stage I loops build the image split (trailing space removed) followed by one command per partition |
| Commands.ExtractStage1Shape | LunaHack.py:128-140 | stage I has 1 + \|partitions\| commands; the image split does not end in a space; partition 0 gets the `cxi` command and every other partition a `cfa` command |
| Commands.ExtractStage1Argv | LunaHack.py:155-158 | the image split becomes the tool, `-xtf 3ds`, the ROM as one argument, the header and one `DecryptedPartition<id>.bin` pair per partition |
| Commands.PartitionExtractWordsPlain | LunaHack.py:135-139 | with a plain prefix, key and name, no word of a per-partition extraction command holds a space or brace |
| Commands.ExtractStage1PartitionArgv | LunaHack.py:135-158 | each per-partition extraction command, run behind the tool name, becomes the tool name followed by that partition's `cxi` or `cfa` words, whatever the ROM name |
| Commands.SecondaryPartitions | LunaHack.py:205-207 | skipping partition 0 keeps at most the map's partitions |
| Commands.SecondaryPartitionsMembers | LunaHack.py:205-209 | a partition gets a romfs pack exactly when it is in the map and its key is not `0` |
| Commands.SecondaryPartitionsAfterPrimary | LunaHack.py:205-209 | with partition 0 first and unique, every other partition gets a romfs pack, in map order |
| Commands.SecondaryPartitionsStep | LunaHack.py:205-209 | each loop step adds the partition unless its key is `0` |
| Commands.RomfsBuildsAppend | LunaHack.py:208-209 | the romfs packs of a longer list end with the new partition's pack |
| Commands.PartitionBuildsStep | LunaHack.py:211-216 | each loop step appends that partition's assembly |
| Commands.BuildRebuildStage2 | LunaHack.py:204-216 | the stage II loops build the romfs packs of the secondary partitions followed by one assembly per partition |
| Commands.RebuildStage2Shape | LunaHack.py:204-216 | stage II has one romfs pack per secondary partition, none for partition 0, then one assembly per partition, both in map order |
| Commands.RomfsBuildWordsPlain | LunaHack.py:208 | with a plain prefix and name, no word of a romfs pack command holds a space or brace |
| Commands.PartitionBuildWordsPlain | LunaHack.py:211-215 | with a plain prefix, key and name, no word of a partition assembly command holds a space or brace |
| Commands.RomfsBuildArgv | LunaHack.py:208-220 | a romfs pack command, run behind the tool name, becomes the tool name followed by its words |
| Commands.PartitionBuildArgv | LunaHack.py:211-220 | a partition assembly command, run behind the tool name, becomes the tool name followed by its `cxi` or `cfa` words |
| Commands.RebuildStage2Argv | LunaHack.py:204-220 | every stage II command, run behind the tool name, becomes the tool name followed by its words, whatever the ROM name: the romfs packs of the secondary partitions, then the assemblies of all partitions, in map order |
| Commands.BuildAssemblyArgv | LunaHack.py:229-234 | the final loop, `subproc_format` and `[:-1]` produce the assembly argument vector |
| Commands.AssemblyDropsOnlyTrailingEmpty | LunaHack.py:233-234 | the last formatted argument is the empty one from the trailing space, and dropping it leaves exactly the arguments of the template without it |
| Commands.AssemblyArgvPlain | LunaHack.py:230-234 | the final argument vector is the tool, `-ctf 3ds`, the output name in the `{rom}` slot, the header and one `CustomPartition<id>.bin` pair per partition in map order |
| Cleanup.RemovePlaceholders | LunaHack.py:223-226 | the cleanup loop, in any listing order, leaves exactly the cleaned directory |
| Cleanup.CleanedRemovesExactlyPlaceholders | LunaHack.py:223-226 | exactly the `Custom*.bin` entries of at most 20000 bytes disappear; every other entry keeps its size; a surviving `Custom*.bin` is over 20000 bytes |
| Cleanup.CleanedIdempotent | LunaHack.py:223-226 | a second cleanup pass deletes nothing |
| LunaHack.Session.constructor | LunaHack.py:105-121 | a new session holds the discovered ROMs of the listing |
| LunaHack.Session.ObtainRom | LunaHack.py:238-254 | with no candidate the program exits and nothing is set; otherwise the selected ROM and its output name are stored |
| LunaHack.Session.AssemblyCommand | LunaHack.py:229-234 | the session's final assembly carries its output name in the `{rom}` slot |
| LunaHack.SessionConstantsPlain | LunaHack.py:106-116 | the tool name, the prefix and the partition keys need no quoting |
| LunaHack.PartitionNamesPlain | LunaHack.py:110-116 | the partition names hold no space or brace, so the per-partition command lemmas apply to the program's map |
| LunaHack.PartitionMapOrder | LunaHack.py:110-116 | the partition map has five entries, keyed 0, 1, 2, 6, 7 in that order |
| LunaHack.SessionExtractStage1 | LunaHack.py:128-158 | stage I has 6 commands, and the image split's argument vector carries the ROM as one argument and the five `DecryptedPartition` blobs in order |
| LunaHack.SessionRebuildStage2 | LunaHack.py:204-216 | stage II has 9 commands: romfs packs for partitions 1, 2, 6, 7 followed by assemblies for 0, 1, 2, 6, 7 |
| LunaHack.SessionAssemblyArgv | LunaHack.py:229-234 | the final argument vector has 16 arguments, the output name in the `{rom}` slot, the five `CustomPartition` blobs in order and no empty argument |

## Left out

- Running the external tools (`subprocess.run` of `3dstool.exe` and `pk3DS.exe`): they are opaque programs, and their exit codes are ignored by the script.
- File-system effects that belong to the operating system: `copydir`, `os.makedirs`, `os.rename`, `shutil.copyfile`, `shutil.rmtree`, and the removal of the intermediate partitions and banner after extraction. Only the cleanup pass is modelled, as a filter over a name-to-size map. That map does not tell files from directories, and it ignores errors from `getsize`.
- The fixed command lists of extraction stages II and III and of rebuild stage I: they are constant strings with no logic.
- `Spinner`: a background thread that redraws a terminal glyph.
- Prompts, `os.system('CLS')`, `input`, `log`, the logo, and the `sys.exit` calls. The ROM prompt is modelled only as the index `pick` into the candidates; its requirement `pick < |roms|` is what the prompt guarantees.
- `prompt_recompression`, `cleanup` and `process`: a loop around the editor launch, directory removal, and the fixed order of the steps.
- Templating.Format: a replacement field other than `{rom}` is treated as an error. That is right for unknown names and lone braces, where Python raises. Python would instead apply a conversion or format spec such as `{rom!s}` or `{rom:>8}`, or an index. No template in the program contains one.
- Templating.FormatArgs: every exception `str.format` can raise is modelled as the same `None`.
- Text.Lower: only ASCII letters are lower-cased. The characters of the suffixes `.3ds` and `_modded.3ds` are ASCII, and no other character lower-cases to one of them, so the discovery decision is unaffected.
- LunaHack.Session.constructor: `rom` and `optRom` start as the empty string; in Python these attributes do not exist until `obtain_rom` runs.
