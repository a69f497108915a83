/** The two independent file checks: the SFTP watcher's and the upload endpoint's. */
module Validators {
  import opened Options
  import opened PyStrings

  type Bytes = seq<bv8>

  const MAX_FILE_BYTES: nat := 100 * 1024 * 1024

  datatype Reason =
    | ZeroByte
    | UnsupportedExtension(ext: string)
    | TooLarge(size: nat)

  predicate ValidExtension(ext: string) {
    ext == ".tiff" || ext == ".tif"
  }

  /** The watcher's check of a downloaded file. */
  function RejectReason(filename: string, data: Bytes): (reason: Option<Reason>)
    ensures reason == None <==> 0 < |data| <= MAX_FILE_BYTES && ValidExtension(Lower(Suffix(filename)))
  {
    if data == [] then Some(ZeroByte)
    else
      var suffix := Lower(Suffix(filename));
      if !ValidExtension(suffix) then Some(UnsupportedExtension(suffix))
      else if |data| > MAX_FILE_BYTES then Some(TooLarge(|data|))
      else None
  }

  /** The extension as the upload endpoint reads it. */
  function UploadExtension(name: string): string {
    if '.' in name then "." + Lower(RSplitLast(name, '.')) else ""
  }

  predicate ExtensionAccepted(name: string) {
    ValidExtension(UploadExtension(name))
  }

  predicate ContentAccepted(data: Bytes) {
    data != [] && |data| <= MAX_FILE_BYTES
  }

  predicate WatcherAccepts(name: string, data: Bytes) {
    RejectReason(name, data) == None
  }

  predicate UploadAccepts(name: string, data: Bytes) {
    ExtensionAccepted(name) && ContentAccepted(data)
  }

  function Base(name: string): string {
    RSplitLast(name, '/')
  }

  /** The names on which the two extension tests part: a last component that is nothing but the extension, and a
      name ending in `/` or `/.` whose last real component has a TIFF suffix. */
  predicate Divergent(name: string) {
    || ValidExtension(Lower(Base(name)))
    || ((Base(name) == "" || Base(name) == ".") && ValidExtension(Lower(Suffix(name))))
  }

  /** The letters of an accepted extension, in either case. */
  predicate TiffLetters(s: string) {
    Lower(s) == "tiff" || Lower(s) == "tif"
  }

  lemma TiffLettersClean(s: string)
    requires TiffLetters(s)
    ensures 3 <= |s| <= 4 && '.' !in s && SlashFree(s)
  {
    assert forall i :: 0 <= i < |s| ==> Lower(s)[i] == LowerChar(s[i]);
    assert |s| == |Lower(s)|;
  }

  lemma ValidExtensionLetters(ext: string)
    ensures ValidExtension(ext) <==> ext != "" && ext[0] == '.' && (ext[1..] == "tiff" || ext[1..] == "tif")
  {
  }

  /** Lowering first and testing after is a test of the letters behind the dot. */
  lemma ValidLowered(s: string)
    ensures ValidExtension(Lower(s)) <==> s != "" && s[0] == '.' && TiffLetters(s[1..])
  {
    ValidExtensionLetters(Lower(s));
    if s != "" {
      assert Lower(s)[1..] == Lower(s[1..]);
      assert Lower(s)[0] == LowerChar(s[0]);
    }
  }

  lemma ExtensionAcceptedLetters(name: string)
    ensures ExtensionAccepted(name) <==> '.' in name && TiffLetters(RSplitLast(name, '.'))
  {
    ValidExtensionLetters(UploadExtension(name));
    if '.' in name {
      assert UploadExtension(name)[1..] == Lower(RSplitLast(name, '.'));
    }
  }

  /** The last dot of a path lies in its last component when that component has one. */
  lemma DotInBase(name: string)
    requires '.' in Base(name)
    ensures '.' in name && RSplitLast(name, '.') == RSplitLast(Base(name), '.')
  {
  }

  lemma NoDotInBase(name: string)
    requires '.' in name && SlashFree(RSplitLast(name, '.'))
    ensures '.' in Base(name)
  {
  }

  /** The upload test only looks at the last component. */
  lemma ExtensionOfBase(name: string)
    ensures ExtensionAccepted(name) <==> ExtensionAccepted(Base(name))
  {
    ExtensionAcceptedLetters(name);
    ExtensionAcceptedLetters(Base(name));
    if '.' in Base(name) {
      DotInBase(name);
    } else if ExtensionAccepted(name) {
      TiffLettersClean(RSplitLast(name, '.'));
      NoDotInBase(name);
    }
  }

  /** On a proper last component the two tests differ only about a leading dot. */
  lemma ExtensionTestsOnBase(base: string)
    requires SlashFree(base) && base != "" && base != "."
    ensures ValidExtension(Lower(Suffix(base))) <==> ExtensionAccepted(base) && RFind(base, '.') > 0
  {
    SlashFreeName(base);
    ExtensionAcceptedLetters(base);
    var i := RFind(base, '.');
    ValidLowered(Suffix(base));
    if i >= 0 && TiffLetters(base[i + 1..]) {
      TiffLettersClean(base[i + 1..]);
    }
    if 0 < i < |base| - 1 {
      assert Suffix(base)[1..] == base[i + 1..];
    }
  }

  lemma OnlyLeadingDot(base: string)
    requires base != "" && base[0] == '.' && '.' !in base[1..]
    ensures RFind(base, '.') == 0 && RSplitLast(base, '.') == base[1..]
  {
  }

  /** A bare extension is exactly an accepted name whose last dot comes first. */
  lemma BareExtension(base: string)
    ensures ValidExtension(Lower(base)) <==> ExtensionAccepted(base) && RFind(base, '.') == 0
  {
    ExtensionAcceptedLetters(base);
    ValidLowered(base);
    if base != "" && base[0] == '.' && TiffLetters(base[1..]) {
      TiffLettersClean(base[1..]);
      OnlyLeadingDot(base);
    }
  }

  /** For every name and content the two validators give the same verdict, except on divergent names with
      acceptable content, where they never do. */
  lemma ValidatorsAgree(name: string, data: Bytes)
    ensures (WatcherAccepts(name, data) <==> UploadAccepts(name, data)) <==>
            !(ContentAccepted(data) && Divergent(name))
  {
    var base := Base(name);
    ExtensionOfBase(name);
    BareExtension(base);
    ExtensionAcceptedLetters(base);
    if base == "" || base == "." {
      ValidLowered(base);
      if ExtensionAccepted(base) {
        TiffLettersClean(RSplitLast(base, '.'));
      }
    } else {
      SlashFreeName(base);
      assert Suffix(name) == Suffix(base);
      ExtensionTestsOnBase(base);
    }
  }

  /** Names from a directory listing have no slash; there the only divergent ones are bare extensions. */
  lemma DivergentListing(name: string)
    requires SlashFree(name)
    ensures Divergent(name) <==> ValidExtension(Lower(name))
  {
  }

  /** A name the upload endpoint accepts is never empty, so its fallback name is never used. */
  lemma AcceptedNameNonEmpty(name: string)
    requires ExtensionAccepted(name)
    ensures |name| >= 4
  {
  }

  /* ---- which names pass, letter by letter ---- */

  predicate EitherCase(c: char, lower: char, upper: char) {
    c == lower || c == upper
  }

  /** An accepted extension has the letters t, i, f and perhaps another f, each in either case. */
  predicate TifInAnyCase(ext: string) {
    && 3 <= |ext| <= 4
    && EitherCase(ext[0], 't', 'T') && EitherCase(ext[1], 'i', 'I') && EitherCase(ext[2], 'f', 'F')
    && (|ext| == 4 ==> EitherCase(ext[3], 'f', 'F'))
  }

  lemma LetterByLetter(s: string)
    ensures TiffLetters(s) <==> TifInAnyCase(s)
  {
    assert forall i :: 0 <= i < |s| ==> Lower(s)[i] == LowerChar(s[i]);
    if TifInAnyCase(s) {
      assert Lower(s) == if |s| == 4 then "tiff" else "tif";
    }
  }

  /** For a proper name, both validators accept exactly a TIFF extension in any case and 1 to 104857600 bytes. */
  lemma AcceptedInAnyCase(stem: string, ext: string, data: Bytes)
    requires SlashFree(stem) && stem != "" && SlashFree(ext) && '.' !in ext
    ensures WatcherAccepts(stem + ['.'] + ext, data) <==> TifInAnyCase(ext) && 1 <= |data| <= 104857600
    ensures UploadAccepts(stem + ['.'] + ext, data) <==> TifInAnyCase(ext) && 1 <= |data| <= 104857600
  {
    var name := stem + ['.'] + ext;
    RSplitUnique(stem, ext, '.');
    LetterByLetter(ext);
    assert name[|stem|] == '.';
    ExtensionAcceptedLetters(name);
    assert name != ".";
    ExtensionTestsOnBase(name);
  }

  /** The reasons come in this order: nothing in the file, the extension, the size. */
  lemma ReasonOrder(name: string, data: Bytes)
    ensures var r := RejectReason(name, data);
            && (r == Some(ZeroByte) <==> |data| == 0)
            && (r == Some(UnsupportedExtension(Lower(Suffix(name)))) <==>
                  |data| != 0 && !ValidExtension(Lower(Suffix(name))))
            && (r == Some(TooLarge(|data|)) <==> |data| > 104857600 && ValidExtension(Lower(Suffix(name))))
  {
  }
}
