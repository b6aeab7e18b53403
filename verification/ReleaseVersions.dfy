/** Choosing the next version of a release series, and the npm tag it is published under. */
module ReleaseVersions {
  import opened Wrappers
  import opened Versions

  // ----- the versions a series has -----

  function WithoutV(tag: string): string {
    if tag != "" && tag[0] == 'v' then tag[1..] else tag
  }

  function ReadTag(tag: string): (v: Option<Version>)
    ensures v.Some? ==> Proper(v.value)
  {
    Parse(WithoutV(tag))
  }

  function ReadAll(read: string -> Option<Version>, tags: seq<string>): seq<Version> {
    if tags == [] then []
    else (if read(tags[0]).Some? then [read(tags[0]).value] else []) + ReadAll(read, tags[1..])
  }

  /** The versions tags name; tags that name none are ignored. */
  function VersionsOf(tags: seq<string>): seq<Version> {
    ReadAll(ReadTag, tags)
  }

  function Filter(p: Version -> bool, versions: seq<Version>): (r: seq<Version>)
    ensures forall v :: v in r <==> v in versions && p(v)
  {
    if versions == [] then []
    else
      var rest := Filter(p, versions[1..]);
      if p(versions[0]) then [versions[0]] + rest else rest
  }

  predicate InSeries(major: nat, minor: nat, v: Version) {
    v.major == major && v.minor == minor
  }

  // ----- the next version -----

  /** The greatest value of `f`, or the floor if there is none greater. */
  function Greatest(f: Version -> int, versions: seq<Version>, floor: int): (m: int)
    ensures m >= floor && forall v <- versions :: f(v) <= m
    ensures m == floor || exists v :: v in versions && f(v) == m
  {
    if versions == [] then floor
    else
      var rest := Greatest(f, versions[1..], floor);
      if f(versions[0]) > rest then f(versions[0]) else rest
  }

  /** The patch to release: the newest one with prereleases only, or the one after all stable ones. */
  function TargetPatch(versions: seq<Version>): (patch: nat) {
    var stable := Greatest((v: Version) => v.patch, Filter((v: Version) => v.pre.None?, versions), -1);
    var active := Filter((v: Version) => v.pre.Some? && v.patch > stable, versions);
    if active != [] then Greatest((v: Version) => v.patch, active, 0) else stable + 1
  }

  datatype Refusal = BadSeries | BackwardChannel

  /** The prereleases of the patch to release. */
  function Targets(versions: seq<Version>): (r: seq<Version>)
    ensures forall v :: v in r <==> v in versions && v.patch == TargetPatch(versions) && v.pre.Some?
  {
    var patch := TargetPatch(versions);
    Filter((v: Version) => v.patch == patch && v.pre.Some?, versions)
  }

  function HighestRank(versions: seq<Version>): (m: int)
    ensures forall v <- versions :: Rank(ChannelOf(v)) <= m
    ensures m == -1 || exists v :: v in versions && Rank(ChannelOf(v)) == m
  {
    Greatest((v: Version) => Rank(ChannelOf(v)), versions, -1)
  }

  /** The serial after all serials of a channel, from 1. */
  function NextSerial(channel: Channel, versions: seq<Version>): (serial: nat)
    ensures forall v <- versions :: ChannelOf(v) == channel ==> SerialOf(v) < serial
  {
    var same := Filter((v: Version) => ChannelOf(v) == channel, versions);
    if same == [] then 1 else Greatest((v: Version) => SerialOf(v), same, 0) + 1
  }

  function NextOf(major: nat, minor: nat, channel: Channel, versions: seq<Version>): Result<Version, Refusal> {
    var patch := TargetPatch(versions);
    if channel == Stable then Ok(Version(major, minor, patch, None))
    else if HighestRank(Targets(versions)) > Rank(channel) then Err(BackwardChannel)
    else Ok(Version(major, minor, patch, Some(Prerelease(channel, NextSerial(channel, Targets(versions))))))
  }

  function NextVersion(series: string, channel: Channel, tags: seq<string>): Result<string, Refusal> {
    match ParseSeries(series)
    case None => Err(BadSeries)
    case Some((major, minor)) =>
      match NextOf(major, minor, channel, Filter((v: Version) => InSeries(major, minor, v), VersionsOf(tags)))
      case Err(e) => Err(e)
      case Ok(v) => Ok(Print(v))
  }

  // ----- it is newer than all of its series -----

  lemma TargetIsNewest(versions: seq<Version>)
    ensures forall v <- versions :: v.patch <= TargetPatch(versions)
    ensures forall v <- versions :: v.pre.None? ==> v.patch < TargetPatch(versions)
  {
    var stables := Filter((v: Version) => v.pre.None?, versions);
    var stable := Greatest((v: Version) => v.patch, stables, -1);
    var active := Filter((v: Version) => v.pre.Some? && v.patch > stable, versions);
    forall v <- versions
      ensures v.patch <= TargetPatch(versions) && (v.pre.None? ==> v.patch < TargetPatch(versions))
    {
      if v.pre.None? {
        assert v in stables && v.patch <= stable;
        if active != [] {
          assert active[0] in active && active[0].patch <= TargetPatch(versions);
        }
      } else if v.patch > stable {
        assert v in active;
      } else if active != [] {
        assert active[0] in active && active[0].patch <= TargetPatch(versions);
      }
    }
  }

  lemma NextOfIsNewer(major: nat, minor: nat, channel: Channel, versions: seq<Version>)
    requires forall v <- versions :: Proper(v) && InSeries(major, minor, v)
    requires NextOf(major, minor, channel, versions).Ok?
    ensures var next := NextOf(major, minor, channel, versions).value;
            Proper(next) && InSeries(major, minor, next) && ChannelOf(next) == channel
            && forall v <- versions :: Compare(next, v) > 0
  {
    TargetIsNewest(versions);
    var next, patch := NextOf(major, minor, channel, versions).value, TargetPatch(versions);
    forall v <- versions
      ensures Compare(next, v) > 0
    {
      if v.patch == patch && channel != Stable {
        assert v in Targets(versions);
      }
    }
  }

  lemma {:induction false} ReadAllReads(read: string -> Option<Version>, tags: seq<string>)
    ensures forall v <- ReadAll(read, tags) :: exists tag :: tag in tags && read(tag) == Some(v)
  {
    if tags != [] {
      ReadAllReads(read, tags[1..]);
      forall v <- ReadAll(read, tags)
        ensures exists tag :: tag in tags && read(tag) == Some(v)
      {
        if read(tags[0]) == Some(v) {
          assert tags[0] in tags;
        } else {
          var tag :| tag in tags[1..] && read(tag) == Some(v);
          assert tag in tags;
        }
      }
    }
  }

  lemma VersionsAreProper(tags: seq<string>)
    ensures forall v <- VersionsOf(tags) :: Proper(v)
  {
    ReadAllReads(ReadTag, tags);
  }

  /**
   * What is released next parses as a version of the series and the channel asked for, and
   * is newer than every version of the series that the tags name.
   */
  lemma NextIsNewer(series: string, channel: Channel, tags: seq<string>)
    requires NextVersion(series, channel, tags).Ok?
    ensures ParseSeries(series).Some?
    ensures var (major, minor) := ParseSeries(series).value;
            var next := Parse(NextVersion(series, channel, tags).value);
            && next.Some? && InSeries(major, minor, next.value) && ChannelOf(next.value) == channel
            && forall v <- VersionsOf(tags) :: InSeries(major, minor, v) ==> Compare(next.value, v) > 0
  {
    var (major, minor) := ParseSeries(series).value;
    var versions := Filter((v: Version) => InSeries(major, minor, v), VersionsOf(tags));
    VersionsAreProper(tags);
    NextOfIsNewer(major, minor, channel, versions);
    ParsePrint(NextOf(major, minor, channel, versions).value);
  }

  /** It is refused only when a later channel was already released for its patch. */
  lemma RefusedIff(major: nat, minor: nat, channel: Channel, versions: seq<Version>)
    ensures NextOf(major, minor, channel, versions).Err? <==>
            && channel != Stable
            && exists v :: v in versions && v.pre.Some? && v.patch == TargetPatch(versions) && Rank(ChannelOf(v)) > Rank(channel)
  {
    var targets := Targets(versions);
    if HighestRank(targets) > Rank(channel) {
      var v :| v in targets && Rank(ChannelOf(v)) == HighestRank(targets);
      assert v in versions;
    }
    if v :| v in versions && v.pre.Some? && v.patch == TargetPatch(versions) && Rank(ChannelOf(v)) > Rank(channel) {
      assert v in targets;
    }
  }

  // ----- the npm tag -----

  datatype NpmTag = Named(name: string) | Latest | Lts(major: nat, minor: nat)

  /** The newest of some versions. */
  function Newest(versions: seq<Version>): (newest: Option<Version>)
    ensures newest.None? <==> versions == []
    ensures newest.Some? ==> newest.value in versions
  {
    if versions == [] then None
    else
      var rest := Newest(versions[1..]);
      if rest.Some? && Compare(rest.value, versions[0]) >= 0 then rest else Some(versions[0])
  }

  lemma {:induction false} NewestIsNewest(versions: seq<Version>)
    requires forall v <- versions :: Proper(v)
    ensures forall v <- versions :: Compare(v, Newest(versions).value) <= 0
  {
    if versions != [] {
      NewestIsNewest(versions[1..]);
      var newest := Newest(versions).value;
      forall v <- versions
        ensures Compare(v, newest) <= 0
      {
        if v in versions[1..] {
          CompareIsTotalOrder(v, Newest(versions[1..]).value, newest);
        }
      }
    }
  }

  function StableOf(versions: seq<Version>): (r: seq<Version>)
    ensures forall v :: v in r <==> v in versions && v.pre.None?
  {
    Filter((v: Version) => v.pre.None?, versions)
  }

  /** The npm tag of a version, given all versions that are tagged. */
  function NpmTagFor(version: Version, channel: Channel, versions: seq<Version>): NpmTag {
    match channel
    case Alpha => Named("alpha")
    case Beta => Named("beta")
    case Rc => Named("next")
    case Stable =>
      var newest := Newest(StableOf(versions));
      if newest.None? || version.major > newest.value.major
         || (version.major == newest.value.major && version.minor >= newest.value.minor)
      then Latest
      else Lts(version.major, version.minor)
  }

  // ----- tags -----

  lemma {:induction false} ReadAllSnoc(read: string -> Option<Version>, tags: seq<string>, tag: string)
    requires read(tag).Some?
    ensures ReadAll(read, tags + [tag]) == ReadAll(read, tags) + [read(tag).value]
  {
    if tags == [] {
      assert tags + [tag] == [tag] && ReadAll(read, [tag][1..]) == [];
    } else {
      assert (tags + [tag])[0] == tags[0] && (tags + [tag])[1..] == tags[1..] + [tag];
      ReadAllSnoc(read, tags[1..], tag);
    }
  }

  /** Tagging a version adds exactly that version to what the tags name. */
  lemma TagNamesVersion(tags: seq<string>, v: Version)
    requires Proper(v)
    ensures VersionsOf(tags + ["v" + Print(v)]) == VersionsOf(tags) + [v]
  {
    ParsePrint(v);
    assert WithoutV("v" + Print(v)) == Print(v);
    ReadAllSnoc(ReadTag, tags, "v" + Print(v));
  }
}
