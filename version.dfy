/**
 * Build information read from `version.txt`: a `Built:` line gives the version, an `Archive:`
 * line the archive name; the first readable candidate file decides, and the answer is cached.
 */
module Version {
  import opened Wrappers
  import opened Strings

  const BuiltTag: string := "Built:"
  const ArchiveTag: string := "Archive:"
  const DevBuild: string := "Dev Build"

  /**
   * The value the last line starting with `tag` gives: that line without its first `drop`
   * characters, stripped. `Built:` lines keep the tag (`drop` 0), `Archive:` lines lose it.
   */
  function LastTagged(lines: seq<string>, tag: string, drop: nat): (r: Option<string>)
    requires drop <= |tag|
    ensures r.None? <==> forall i :: 0 <= i < |lines| ==> !StartsWith(lines[i], tag)
  {
    if lines == [] then None
    else
      var last := lines[|lines| - 1];
      if StartsWith(last, tag) then Some(Strip(last[drop..]))
      else
        var r := LastTagged(lines[..|lines| - 1], tag, drop);
        assert forall i :: 0 <= i < |lines| - 1 ==> lines[..|lines| - 1][i] == lines[i];
        r
  }

  /** A later tagged line overrides every earlier one. */
  lemma {:induction false} LastTaggedAppend(a: seq<string>, b: seq<string>, tag: string, drop: nat)
    requires drop <= |tag|
    ensures LastTagged(a + b, tag, drop) ==
            if LastTagged(b, tag, drop).Some? then LastTagged(b, tag, drop) else LastTagged(a, tag, drop)
    decreases |b|
  {
    if b == [] {
      assert a + b == a;
    } else {
      var last := b[|b| - 1];
      assert (a + b)[|a + b| - 1] == last;
      assert (a + b)[..|a + b| - 1] == a + b[..|b| - 1];
      if !StartsWith(last, tag) {
        LastTaggedAppend(a, b[..|b| - 1], tag, drop);
      }
    }
  }

  /** The value a tagged line gives stands when no later line carries the tag. */
  lemma LastTaggedWins(a: seq<string>, line: string, b: seq<string>, tag: string, drop: nat)
    requires drop <= |tag| && StartsWith(line, tag)
    requires forall j :: 0 <= j < |b| ==> !StartsWith(b[j], tag)
    ensures LastTagged(a + [line] + b, tag, drop) == Some(Strip(line[drop..]))
  {
    LastTaggedAppend(a + [line], b, tag, drop);
    LastTaggedAppend(a, [line], tag, drop);
    assert [line][..0] == [];
  }

  /** The version the lines give: the last `Built:` line, stripped as a whole. */
  function VersionOf(lines: seq<string>): Option<string> {
    LastTagged(lines, BuiltTag, 0)
  }

  /** The archive the lines give: the text after `Archive:` on the last such line, stripped. */
  function ArchiveOf(lines: seq<string>): Option<string> {
    LastTagged(lines, ArchiveTag, |ArchiveTag|)
  }

  /** The dictionary `_read_version_file` returns. */
  datatype BuildInfo = BuildInfo(version: string, archive: Option<string>)

  /** What one readable file gives: a missing `Built:` line means "Dev Build", a missing `Archive:` line None. */
  function InfoOf(lines: seq<string>): (r: BuildInfo)
    ensures r.version == VersionOf(lines).GetOr(DevBuild) && r.archive == ArchiveOf(lines)
  {
    BuildInfo(VersionOf(lines).GetOr(DevBuild), ArchiveOf(lines))
  }

  /**
   * What the candidate files give; each candidate is None when opening or reading it raised,
   * or its lines. The first readable one decides, and when none is readable the result is
   * ("Dev Build", None).
   */
  function FromCandidates(candidates: seq<Option<seq<string>>>): (r: BuildInfo)
    ensures (forall i :: 0 <= i < |candidates| ==> candidates[i].None?) ==> r == BuildInfo(DevBuild, None)
    ensures forall i :: 0 <= i < |candidates| && candidates[i].Some? && (forall j :: 0 <= j < i ==> candidates[j].None?) ==>
              r == InfoOf(candidates[i].value)
  {
    if candidates == [] then BuildInfo(DevBuild, None)
    else match candidates[0]
      case Some(lines) => InfoOf(lines)
      case None =>
        var r := FromCandidates(candidates[1..]);
        assert forall i :: 1 <= i < |candidates| ==> candidates[1..][i - 1] == candidates[i];
        r
  }

  /** What one more line does to the version and the archive read so far; no line carries both tags. */
  lemma LineStep(prefix: seq<string>, line: string)
    ensures VersionOf(prefix + [line]) == if StartsWith(line, BuiltTag) then Some(Strip(line)) else VersionOf(prefix)
    ensures ArchiveOf(prefix + [line]) ==
            if StartsWith(line, ArchiveTag) then Some(Strip(line[|ArchiveTag|..])) else ArchiveOf(prefix)
    ensures !(StartsWith(line, BuiltTag) && StartsWith(line, ArchiveTag))
  {
    LastTaggedAppend(prefix, [line], BuiltTag, 0);
    LastTaggedAppend(prefix, [line], ArchiveTag, |ArchiveTag|);
    assert [line][..0] == [];
    if StartsWith(line, BuiltTag) {
      assert line[0] == BuiltTag[0] != ArchiveTag[0];
    }
  }

  /** The `for line in lines` loop of `_read_version_file`. */
  method ParseLines(lines: seq<string>) returns (info: BuildInfo)
    ensures info == InfoOf(lines)
  {
    var version: Option<string> := None;
    var archive: Option<string> := None;
    ghost var seen: seq<string> := [];
    var i := 0;
    while i < |lines|
      invariant 0 <= i <= |lines| && seen == lines[..i]
      invariant version == VersionOf(seen) && archive == ArchiveOf(seen)
    {
      var line := lines[i];
      LineStep(seen, line);
      if StartsWith(line, BuiltTag) {
        version := Some(Strip(line));
      } else if StartsWith(line, ArchiveTag) {
        archive := Some(Strip(line[|ArchiveTag|..]));
      }
      assert version == VersionOf(seen + [line]) && archive == ArchiveOf(seen + [line]);
      seen := seen + [line];
      i := i + 1;
    }
    assert seen == lines;
    info := BuildInfo(version.GetOr(DevBuild), archive);
  }

  /** The module globals `_BUILD_VERSION` and `_ARCHIVE_NAME`. */
  class VersionCache {
    /** `_BUILD_VERSION`; None until the first read */
    var version: Option<string>
    var archive: Option<string>

    constructor ()
      ensures version == None && archive == None
    {
      version := None;
      archive := None;
    }

    /** `_read_version_file`: the cached values once set, otherwise read from the candidates and cached. */
    method Read(candidates: seq<Option<seq<string>>>) returns (info: BuildInfo)
      modifies this
      ensures old(version).Some? ==> info == BuildInfo(old(version).value, old(archive)) && unchanged(this)
      ensures old(version).None? ==> info == FromCandidates(candidates)
      ensures version == Some(info.version) && archive == info.archive
    {
      if version.Some? {
        return BuildInfo(version.value, archive);
      }
      var k := 0;
      while k < |candidates|
        invariant 0 <= k <= |candidates|
        invariant FromCandidates(candidates) == FromCandidates(candidates[k..])
      {
        assert candidates[k..][1..] == candidates[k + 1..];
        match candidates[k]
        case Some(lines) =>
          info := ParseLines(lines);
          version, archive := Some(info.version), info.archive;
          return;
        case None =>
        k := k + 1;
      }
      version, archive := Some(DevBuild), None;
      info := BuildInfo(DevBuild, None);
    }

    /** `get_build_version` */
    method BuildVersion(candidates: seq<Option<seq<string>>>) returns (v: string)
      modifies this
      ensures old(version).Some? ==> v == old(version).value && unchanged(this)
      ensures old(version).None? ==> v == FromCandidates(candidates).version
      ensures version == Some(v)
    {
      var info := Read(candidates);
      v := info.version;
    }

    /** `get_archive_name` */
    method ArchiveName(candidates: seq<Option<seq<string>>>) returns (a: Option<string>)
      modifies this
      ensures old(version).Some? ==> a == old(archive) && unchanged(this)
      ensures old(version).None? ==> a == FromCandidates(candidates).archive
      ensures archive == a
    {
      var info := Read(candidates);
      a := info.archive;
    }
  }

  /** After the first read, a second read with different files gives the same answer. */
  method ReadTwice(cache: VersionCache, first: seq<Option<seq<string>>>, second: seq<Option<seq<string>>>)
    returns (a: BuildInfo, b: BuildInfo)
    modifies cache
    ensures a == b
  {
    a := cache.Read(first);
    b := cache.Read(second);
  }

  /** A file with both lines gives the stripped `Built:` line and the stripped archive name. */
  lemma BothLines(built: string, archive: string)
    ensures FromCandidates([Some(["Built: " + built, "Archive: " + archive])]) ==
            BuildInfo(Strip("Built: " + built), Some(Strip(" " + archive)))
  {
    var b0, a1 := "Built: " + built, "Archive: " + archive;
    var lines := [b0, a1];
    assert b0[..|BuiltTag|] == BuiltTag && b0[0..] == b0;
    assert a1[..|ArchiveTag|] == ArchiveTag && a1[|ArchiveTag|..] == " " + archive;
    assert !StartsWith(a1, BuiltTag) by { assert a1[0] == 'A'; }
    assert !StartsWith(b0, ArchiveTag) by { assert b0[0] == 'B'; }
    assert lines[..1] == [b0] && |lines[..1][..0]| == 0;
    assert StartsWith(b0, BuiltTag);
    assert LastTagged([b0], BuiltTag, 0) == Some(Strip(b0));
    assert VersionOf(lines) == Some(Strip(b0));
    assert ArchiveOf(lines) == Some(Strip(" " + archive));
  }
}
