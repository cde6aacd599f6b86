/**
 * The cleanup pass after stage II of `rebuild` (LunaHack.py:223-226): regenerated blobs
 * (`Custom*.bin`) of at most 20000 bytes are placeholders and are deleted. The directory is
 * a map from entry name to size in bytes.
 */
module Cleanup {
  import opened Text

  /** The size at or below which a regenerated blob is deleted. */
  const PlaceholderLimit: nat := 20000

  /** A regenerated blob: the name starts with `Custom` and ends with `.bin` (case matters). */
  predicate IsCustomBlob(name: string)
  {
    StartsWith(name, "Custom") && EndsWith(name, ".bin")
  }

  predicate IsPlaceholder(name: string, size: nat)
  {
    IsCustomBlob(name) && size <= PlaceholderLimit
  }

  /** The directory left by the cleanup pass. */
  function Cleaned(dir: map<string, nat>): map<string, nat>
  {
    map f | f in dir && !IsPlaceholder(f, dir[f]) :: dir[f]
  }

  /** The loop over the directory listing; the listing order is the file system's, so the
      loop takes the entries in an arbitrary order. */
  method RemovePlaceholders(dir: map<string, nat>) returns (after: map<string, nat>)
    ensures after == Cleaned(dir)
  {
    after := dir;
    var listing := dir.Keys;
    while listing != {}
      invariant listing <= dir.Keys
      invariant after.Keys <= dir.Keys
      invariant forall f :: f in dir ==> (f in after <==> f in listing || !IsPlaceholder(f, dir[f]))
      invariant forall f :: f in after ==> after[f] == dir[f]
      decreases listing
    {
      var file :| file in listing;
      if StartsWith(file, "Custom") && EndsWith(file, ".bin") {
        if after[file] <= 20000 {
          after := after - {file};
        }
      }
      listing := listing - {file};
    }
  }

  /** Exactly the small regenerated blobs disappear; every other entry keeps its size, and a
      regenerated blob that survives is larger than the limit. */
  lemma CleanedRemovesExactlyPlaceholders(dir: map<string, nat>)
    ensures forall f :: f in dir ==> (f !in Cleaned(dir) <==> IsCustomBlob(f) && dir[f] <= 20000)
    ensures forall f :: f in Cleaned(dir) ==> f in dir && Cleaned(dir)[f] == dir[f]
    ensures forall f :: f in Cleaned(dir) && IsCustomBlob(f) ==> Cleaned(dir)[f] > 20000
  {
  }

  /** A second cleanup pass finds nothing more to delete. */
  lemma CleanedIdempotent(dir: map<string, nat>)
    ensures Cleaned(Cleaned(dir)) == Cleaned(dir)
  {
  }
}
