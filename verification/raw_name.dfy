/** `getRawName`: strips the directory part and the last extension of a
    file name. Every asset manager of the library keys the assets it loads
    from files by this raw name. */
module RawName {
  import opened Common

  /** Characters `find_last_of("/\\")` looks for. */
  const Separators: set<char> := {'/', '\\'}

  /** Index of the last character of `s` in `chars`, or `None` where
      `find_last_of` answers `npos`. */
  function FindLastOf(s: string, chars: set<char>): (r: Option<nat>)
    ensures r.Some? ==> r.value < |s| && s[r.value] in chars
    ensures r.Some? ==> forall j :: r.value < j < |s| ==> s[j] !in chars
    ensures r.None? ==> forall j :: 0 <= j < |s| ==> s[j] !in chars
  {
    if |s| == 0 then None
    else if s[|s| - 1] in chars then Some(|s| - 1)
    else FindLastOf(s[..|s| - 1], chars)
  }

  /** The outcome of `getRawName`: the raw name it returns and the extension
      it writes to `*ext` (`None` when it leaves `*ext` untouched). */
  datatype RawSplit = RawSplit(raw: string, ext: Option<string>)

  /** The directory part `getRawName` strips: everything up to and including
      the last separator. */
  function DirPart(fileName: string): (dir: string)
    ensures |dir| <= |fileName| && dir == fileName[..|dir|]
    ensures |dir| == 0 || dir[|dir| - 1] in Separators
    ensures forall j :: |dir| <= j < |fileName| ==> fileName[j] !in Separators
  {
    match FindLastOf(fileName, Separators)
    case None => ""
    case Some(i) => fileName[..i + 1]
  }

  function GetRawName(fileName: string): (r: RawSplit)
  {
    var tail := fileName[|DirPart(fileName)|..];
    match FindLastOf(tail, {'.'})
    case None => RawSplit(tail, None)
    case Some(d) => RawSplit(tail[..d], Some(tail[d + 1..]))
  }

  predicate Avoids(s: string, chars: set<char>) {
    forall j :: 0 <= j < |s| ==> s[j] !in chars
  }

  /** The base name a raw name and an extension stand for. */
  function Base(raw: string, ext: Option<string>): string {
    match ext
    case None => raw
    case Some(e) => raw + "." + e
  }

  /** The independent description of a raw name: `fileName` is a directory
      part `dir` (empty, or ending in a separator) followed by a base name
      without separators; the base name is `raw` followed by `.` and an
      extension without dots, or, when `ext` is `None`, is `raw` itself and
      holds no dot at all. */
  predicate IsRawSplit(fileName: string, dir: string, raw: string, ext: Option<string>) {
    && fileName == dir + Base(raw, ext)
    && (|dir| == 0 || dir[|dir| - 1] in Separators)
    && Avoids(Base(raw, ext), Separators)
    && match ext
       case None => Avoids(raw, {'.'})
       case Some(e) => Avoids(e, {'.'})
  }

  lemma TailAvoidsSeparators(fileName: string)
    ensures Avoids(fileName[|DirPart(fileName)|..], Separators)
  {
    var k := |DirPart(fileName)|;
    forall j | 0 <= j < |fileName[k..]|
      ensures fileName[k..][j] !in Separators
    {
      assert fileName[k..][j] == fileName[k + j];
    }
  }

  lemma DirPartEnds(fileName: string)
    ensures var dir := DirPart(fileName);
      (|dir| == 0 || dir[|dir| - 1] in Separators) && fileName == dir + fileName[|dir|..]
  {
  }

  /** `getRawName` meets the description: what it returns, with what it
      writes to `*ext`, is a split of the file name as `IsRawSplit` says. */
  lemma GetRawNameIsRawSplit(fileName: string)
    ensures IsRawSplit(fileName, DirPart(fileName), GetRawName(fileName).raw, GetRawName(fileName).ext)
  {
    var dir := DirPart(fileName);
    var tail := fileName[|dir|..];
    DirPartEnds(fileName);
    TailAvoidsSeparators(fileName);
    var r := GetRawName(fileName);
    match FindLastOf(tail, {'.'})
    case None =>
      assert r == RawSplit(tail, None);
    case Some(d) =>
      assert r == RawSplit(tail[..d], Some(tail[d + 1..]));
      assert tail == tail[..d] + "." + tail[d + 1..];
      var e := tail[d + 1..];
      forall j | 0 <= j < |e|
        ensures e[j] !in {'.'}
      {
        assert e[j] == tail[d + 1 + j];
      }
  }

  /** The last separator of `dir + base` is the last character of `dir` when
      `base` holds none. */
  lemma LastSeparatorOfSplit(dir: string, base: string)
    requires |dir| == 0 || dir[|dir| - 1] in Separators
    requires Avoids(base, Separators)
    ensures DirPart(dir + base) == dir
  {
    var f := dir + base;
    assert |dir| > 0 ==> f[|dir| - 1] in Separators;
    assert forall j :: |dir| <= j < |f| ==> f[j] == base[j - |dir|];
    match FindLastOf(f, Separators)
    case None =>
    case Some(i) =>
      assert f[..i + 1] == dir;
  }

  /** The last dot of `raw + "." + e` is the one before `e` when `e` holds
      none. */
  lemma {:induction false} LastDotOfBase(raw: string, e: string)
    requires Avoids(e, {'.'})
    ensures FindLastOf(raw + "." + e, {'.'}) == Some(|raw|)
    decreases |e|
  {
    var b := raw + "." + e;
    if e == [] {
      assert b[|b| - 1] == '.';
    } else {
      var e' := e[..|e| - 1];
      assert b[..|b| - 1] == raw + "." + e';
      assert b[|b| - 1] == e[|e| - 1];
      forall j | 0 <= j < |e'| ensures e'[j] !in {'.'} {
        assert e'[j] == e[j];
      }
      LastDotOfBase(raw, e');
    }
  }

  /** The converse: whatever split meets the description is the one
      `getRawName` computes, so the description pins the result down. */
  lemma RawSplitIsGetRawName(fileName: string, dir: string, raw: string, ext: Option<string>)
    requires IsRawSplit(fileName, dir, raw, ext)
    ensures dir == DirPart(fileName)
    ensures GetRawName(fileName) == RawSplit(raw, ext)
  {
    var base := Base(raw, ext);
    LastSeparatorOfSplit(dir, base);
    assert fileName[|dir|..] == base;
    match ext
    case None =>
      assert FindLastOf(raw, {'.'}) == None;
    case Some(e) =>
      LastDotOfBase(raw, e);
      assert base[..|raw|] == raw;
      assert base[|raw| + 1..] == e;
  }

  /** The raw name never contains a directory separator. */
  lemma RawNameHasNoSeparator(fileName: string)
    ensures Avoids(GetRawName(fileName).raw, Separators)
  {
    GetRawNameIsRawSplit(fileName);
    var r := GetRawName(fileName);
    var base := Base(r.raw, r.ext);
    forall j | 0 <= j < |r.raw|
      ensures r.raw[j] !in Separators
    {
      assert r.raw[j] == base[j];
    }
  }
}
