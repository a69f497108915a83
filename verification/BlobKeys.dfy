/** Object-store keys: the three printers, and the parser in the inference worker. */
module BlobKeys {
  import opened PyStrings

  function OriginalKey(batchId: string, filename: string): string {
    "batches/" + batchId + "/original/" + filename
  }

  function OverlayKey(batchId: string, filename: string): string {
    "batches/" + batchId + "/overlay/" + Stem(filename) + ".png"
  }

  function QuarantineKey(batchId: string, filename: string): string {
    "quarantine/" + batchId + "/" + filename
  }

  /** The worker recovers the file name from the key of its job. */
  function FilenameOf(blobKey: string): string {
    RSplitLast(blobKey, '/')
  }

  lemma OriginalShape(batchId: string, filename: string)
    ensures OriginalKey(batchId, filename) == "batches/" + (batchId + ['/'] + ("original/" + filename))
  {
  }

  lemma OverlayShape(batchId: string, filename: string)
    ensures OverlayKey(batchId, filename) == "batches/" + (batchId + ['/'] + ("overlay/" + Stem(filename) + ".png"))
  {
  }

  /** Two originals share a key only if they are the same file of the same batch, whatever the file names contain. */
  lemma OriginalKeyInjective(b: string, f: string, b': string, f': string)
    requires SlashFree(b) && SlashFree(b')
    ensures OriginalKey(b, f) == OriginalKey(b', f') <==> b == b' && f == f'
  {
    OriginalShape(b, f);
    OriginalShape(b', f');
    if OriginalKey(b, f) == OriginalKey(b', f') {
      CommonPrefix("batches/", b + ['/'] + ("original/" + f), b' + ['/'] + ("original/" + f'));
      SplitUnique(b, "original/" + f, b', "original/" + f', '/');
      CommonPrefix("original/", f, f');
    }
  }

  lemma QuarantineKeyInjective(b: string, f: string, b': string, f': string)
    requires SlashFree(b) && SlashFree(b')
    ensures QuarantineKey(b, f) == QuarantineKey(b', f') <==> b == b' && f == f'
  {
    assert QuarantineKey(b, f) == "quarantine/" + (b + ['/'] + f);
    assert QuarantineKey(b', f') == "quarantine/" + (b' + ['/'] + f');
    if QuarantineKey(b, f) == QuarantineKey(b', f') {
      CommonPrefix("quarantine/", b + ['/'] + f, b' + ['/'] + f');
      SplitUnique(b, f, b', f', '/');
    }
  }

  /** Two overlays share a key exactly when they belong to one batch and the file names have one stem. */
  lemma OverlayKeyClash(b: string, f: string, b': string, f': string)
    requires SlashFree(b) && SlashFree(b')
    ensures OverlayKey(b, f) == OverlayKey(b', f') <==> b == b' && Stem(f) == Stem(f')
  {
    OverlayShape(b, f);
    OverlayShape(b', f');
    var x, x' := "overlay/" + Stem(f) + ".png", "overlay/" + Stem(f') + ".png";
    if OverlayKey(b, f) == OverlayKey(b', f') {
      CommonPrefix("batches/", b + ['/'] + x, b' + ['/'] + x');
      SplitUnique(b, x, b', x', '/');
      assert Stem(f) == x[8..|x| - 4] && Stem(f') == x'[8..|x'| - 4];
    }
  }

  /** Originals, overlays and quarantined files live in disjoint parts of the bucket. */
  lemma KeyFamiliesDisjoint(b: string, f: string, b': string, f': string)
    requires SlashFree(b) && SlashFree(b')
    ensures OriginalKey(b, f) != OverlayKey(b', f')
    ensures OriginalKey(b, f) != QuarantineKey(b', f')
    ensures OverlayKey(b, f) != QuarantineKey(b', f')
  {
    assert OriginalKey(b, f)[0] == 'b' && OverlayKey(b, f)[0] == 'b' && QuarantineKey(b', f')[0] == 'q';
    OriginalShape(b, f);
    OverlayShape(b', f');
    var x, x' := "original/" + f, "overlay/" + Stem(f') + ".png";
    assert x[1] == 'r' && x'[1] == 'v';
    if OriginalKey(b, f) == OverlayKey(b', f') {
      CommonPrefix("batches/", b + ['/'] + x, b' + ['/'] + x');
      SplitUnique(b, x, b', x', '/');
    }
  }

  /** The two places where the bytes of a received file can be kept. */
  datatype Slot = Original(batch: string, name: string) | Quarantined(batch: string, name: string)

  function KeyOf(slot: Slot): string {
    match slot
    case Original(b, f) => OriginalKey(b, f)
    case Quarantined(b, f) => QuarantineKey(b, f)
  }

  /** Slots have keys of their own, and no overlay is ever stored under one. */
  lemma SlotsApart(slot: Slot, slot': Slot, f: string)
    requires SlashFree(slot.batch) && SlashFree(slot'.batch)
    ensures KeyOf(slot) == KeyOf(slot') <==> slot == slot'
    ensures KeyOf(slot) != OverlayKey(slot'.batch, f)
  {
    OriginalKeyInjective(slot.batch, slot.name, slot'.batch, slot'.name);
    QuarantineKeyInjective(slot.batch, slot.name, slot'.batch, slot'.name);
    KeyFamiliesDisjoint(slot.batch, slot.name, slot'.batch, slot'.name);
    KeyFamiliesDisjoint(slot'.batch, slot'.name, slot.batch, slot.name);
    KeyFamiliesDisjoint(slot.batch, slot.name, slot'.batch, f);
    KeyFamiliesDisjoint(slot'.batch, f, slot.batch, slot.name);
  }

  /** Parsing undoes printing: the worker sees the name the file was stored under, if that name has no slash. */
  lemma FilenameRoundTrip(batchId: string, filename: string)
    ensures FilenameOf(OriginalKey(batchId, filename)) == filename <==> SlashFree(filename)
  {
    if SlashFree(filename) {
      var head := "batches/" + batchId + "/original";
      assert OriginalKey(batchId, filename) == head + ['/'] + filename;
      RSplitUnique(head, filename, '/');
    }
  }

  /** Stem and suffix are a decomposition of the name; the suffix is empty or a dot and at least one more character. */
  lemma StemAndSuffix(path: string)
    ensures Stem(path) + Suffix(path) == PosixName(path)
    ensures Suffix(path) == "" || (|Suffix(path)| >= 2 && Suffix(path)[0] == '.' && '.' !in Suffix(path)[1..])
  {
  }

  lemma StemOf(stem: string, ext: string)
    requires SlashFree(stem) && SlashFree(ext) && '.' !in ext && stem != "" && ext != ""
    ensures Stem(stem + ['.'] + ext) == stem
  {
    var name := stem + ['.'] + ext;
    assert name != ".";
    SlashFreeName(name);
    RSplitUnique(stem, ext, '.');
    assert name[..|stem|] == stem;
  }

  /** `scan.tif` and `scan.tiff` in one batch: distinct originals, one overlay key. */
  lemma OverlayKeysNotInjective(batchId: string)
    ensures OriginalKey(batchId, "scan" + ['.'] + "tif") != OriginalKey(batchId, "scan" + ['.'] + "tiff")
    ensures OverlayKey(batchId, "scan" + ['.'] + "tif") == OverlayKey(batchId, "scan" + ['.'] + "tiff")
  {
    var a, b := "scan" + ['.'] + "tif", "scan" + ['.'] + "tiff";
    assert |OriginalKey(batchId, a)| + 1 == |OriginalKey(batchId, b)|;
    StemOf("scan", "tif");
    StemOf("scan", "tiff");
  }

  /** The keys written out. */
  lemma KeyFormats(batchId: string, filename: string)
    ensures OriginalKey(batchId, filename) == "batches/" + batchId + "/original/" + filename
    ensures QuarantineKey(batchId, filename) == "quarantine/" + batchId + "/" + filename
  {
  }

  lemma OverlayFormat(batchId: string, stem: string, ext: string)
    requires SlashFree(stem) && SlashFree(ext) && '.' !in ext && stem != "" && ext != ""
    ensures OverlayKey(batchId, stem + ['.'] + ext) == "batches/" + batchId + "/overlay/" + stem + ".png"
  {
    StemOf(stem, ext);
  }
}
