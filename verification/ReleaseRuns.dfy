/** Runs of releases: each series only moves up, and so does what npm calls `latest`. */
module ReleaseRuns {
  import opened Wrappers
  import opened Versions
  import opened ReleaseVersions

  /** The versions tagged so far, and the one npm calls `latest`. */
  datatype Registry = Registry(versions: seq<Version>, latest: Option<Version>)

  /** A release of a series on a channel, from a checkout that sees some of the tags. */
  datatype Request = Request(major: nat, minor: nat, channel: Channel, sees: Version -> bool)

  predicate OfSeries(r: Request, v: Version) {
    InSeries(r.major, r.minor, v)
  }

  /** The checkout sees every tag of the series it releases. */
  ghost predicate SeesItsSeries(r: Request, versions: seq<Version>) {
    forall v <- versions :: OfSeries(r, v) ==> r.sees(v)
  }

  /** What the release is computed from. */
  function Visible(r: Request, versions: seq<Version>): (seen: seq<Version>)
    ensures forall v :: v in seen <==> v in versions && r.sees(v) && OfSeries(r, v)
  {
    Filter((v: Version) => r.sees(v) && OfSeries(r, v), versions)
  }

  /** The version a request releases, if it is not refused. */
  function Released(reg: Registry, r: Request): Option<Version> {
    match NextOf(r.major, r.minor, r.channel, Visible(r, reg.versions))
    case Err(_) => None
    case Ok(v) => Some(v)
  }

  /** Tags the release and publishes it. */
  function Publish(reg: Registry, r: Request): Registry {
    match Released(reg, r)
    case None => reg
    case Some(v) =>
      Registry(reg.versions + [v], if NpmTagFor(v, r.channel, reg.versions) == Latest then Some(v) else reg.latest)
  }

  // ----- one release -----

  ghost predicate AllProper(versions: seq<Version>) {
    forall v <- versions :: Proper(v)
  }

  /** A release is newer than every version of its series, seen or not. */
  lemma ReleasedIsNewer(reg: Registry, r: Request)
    requires AllProper(reg.versions) && SeesItsSeries(r, reg.versions) && Released(reg, r).Some?
    ensures var v := Released(reg, r).value;
            && Proper(v) && OfSeries(r, v) && ChannelOf(v) == r.channel
            && forall w <- reg.versions :: OfSeries(r, w) ==> Compare(v, w) > 0
  {
    NextOfIsNewer(r.major, r.minor, r.channel, Visible(r, reg.versions));
    forall w <- reg.versions | OfSeries(r, w)
      ensures Compare(Released(reg, r).value, w) > 0
    {
      assert w in Visible(r, reg.versions);
    }
  }

  lemma PublishKeepsProper(reg: Registry, r: Request)
    requires AllProper(reg.versions)
    ensures AllProper(Publish(reg, r).versions)
  {
    if Released(reg, r).Some? {
      NextOfIsNewer(r.major, r.minor, r.channel, Visible(r, reg.versions));
    }
  }

  // ----- latest -----

  /** `latest` is the newest stable version there is. */
  ghost predicate LatestIsNewest(reg: Registry) {
    && AllProper(reg.versions)
    && if reg.latest.None? then forall v <- reg.versions :: v.pre.Some?
       else
         && reg.latest.value in reg.versions && reg.latest.value.pre.None?
         && forall v <- reg.versions :: v.pre.None? ==> Compare(v, reg.latest.value) <= 0
  }

  lemma NewestStable(reg: Registry)
    requires LatestIsNewest(reg)
    ensures Newest(StableOf(reg.versions)) == reg.latest
  {
    NewestIsNewest(StableOf(reg.versions));
    if reg.latest.Some? {
      var newest := Newest(StableOf(reg.versions));
      assert reg.latest.value in StableOf(reg.versions);
      CompareIsTotalOrder(newest.value, reg.latest.value, newest.value);
    }
  }

  /** A stable release is published as `latest` exactly if it is newer than all stable ones. */
  lemma LatestIff(reg: Registry, r: Request)
    requires LatestIsNewest(reg) && SeesItsSeries(r, reg.versions) && Released(reg, r).Some? && r.channel == Stable
    ensures NpmTagFor(Released(reg, r).value, Stable, reg.versions) == Latest <==>
            reg.latest.Some? ==> Compare(Released(reg, r).value, reg.latest.value) > 0
  {
    ReleasedIsNewer(reg, r);
    NewestStable(reg);
  }

  /** A release keeps `latest` at the newest stable version; it never goes down. */
  lemma LatestMovesUp(reg: Registry, r: Request)
    requires LatestIsNewest(reg) && SeesItsSeries(r, reg.versions)
    ensures LatestIsNewest(Publish(reg, r))
    ensures reg.latest.Some? ==>
              Publish(reg, r).latest.Some? && Compare(Publish(reg, r).latest.value, reg.latest.value) >= 0
  {
    PublishKeepsProper(reg, r);
    if Released(reg, r).Some? {
      var v := Released(reg, r).value;
      ReleasedIsNewer(reg, r);
      if v.pre.None? {
        LatestIff(reg, r);
        if reg.latest.Some? {
          forall w <- reg.versions | w.pre.None?
            ensures Compare(v, reg.latest.value) > 0 ==> Compare(w, v) <= 0
          {
            CompareIsTotalOrder(w, reg.latest.value, v);
            CompareIsTotalOrder(reg.latest.value, v, w);
          }
        }
        CompareIsTotalOrder(v, v, v);
      }
    }
  }

  // ----- runs -----

  function PublishAll(reg: Registry, requests: seq<Request>): Registry
    decreases |requests|
  {
    if requests == [] then reg else PublishAll(Publish(reg, requests[0]), requests[1..])
  }

  /** The versions a run releases, in order. */
  function ReleasedBy(reg: Registry, requests: seq<Request>): seq<Version>
    decreases |requests|
  {
    if requests == [] then []
    else
      var v := Released(reg, requests[0]);
      (if v.Some? then [v.value] else []) + ReleasedBy(Publish(reg, requests[0]), requests[1..])
  }

  /** Every checkout sees its series at the time it is used. */
  ghost predicate AllSee(reg: Registry, requests: seq<Request>)
    decreases |requests|
  {
    requests == [] ||
    (SeesItsSeries(requests[0], reg.versions) && AllSee(Publish(reg, requests[0]), requests[1..]))
  }

  predicate SameSeries(v: Version, w: Version) {
    InSeries(v.major, v.minor, w)
  }

  /** Over any run `latest` is the newest stable version and never goes down. */
  lemma {:induction false} LatestNeverGoesDown(reg: Registry, requests: seq<Request>)
    requires LatestIsNewest(reg) && AllSee(reg, requests)
    ensures LatestIsNewest(PublishAll(reg, requests))
    ensures reg.latest.Some? ==>
              && PublishAll(reg, requests).latest.Some?
              && Compare(reg.latest.value, PublishAll(reg, requests).latest.value) <= 0
    decreases |requests|
  {
    if requests != [] {
      var next := Publish(reg, requests[0]);
      LatestMovesUp(reg, requests[0]);
      LatestNeverGoesDown(next, requests[1..]);
      if reg.latest.Some? {
        CompareIsTotalOrder(reg.latest.value, next.latest.value, PublishAll(next, requests[1..]).latest.value);
      }
    }
  }

  /** What a run releases is newer than all versions of its series there were before. */
  lemma {:induction false} RunIsNewer(reg: Registry, requests: seq<Request>)
    requires AllProper(reg.versions) && AllSee(reg, requests)
    ensures forall v, w :: v in ReleasedBy(reg, requests) && w in reg.versions && SameSeries(v, w) ==> Compare(v, w) > 0
    decreases |requests|
  {
    if requests != [] {
      PublishKeepsProper(reg, requests[0]);
      RunIsNewer(Publish(reg, requests[0]), requests[1..]);
      if Released(reg, requests[0]).Some? {
        ReleasedIsNewer(reg, requests[0]);
      }
    }
  }

  /** Later versions of a series are newer. */
  ghost predicate Increasing(versions: seq<Version>) {
    forall i, j :: 0 <= i < j < |versions| && SameSeries(versions[i], versions[j]) ==>
      Compare(versions[j], versions[i]) > 0
  }

  lemma IncreasingCons(v: Version, later: seq<Version>)
    requires Increasing(later) && forall w <- later :: SameSeries(w, v) ==> Compare(w, v) > 0
    ensures Increasing([v] + later)
  {
    var all := [v] + later;
    forall i, j | 0 <= i < j < |all| && SameSeries(all[i], all[j])
      ensures Compare(all[j], all[i]) > 0
    {
      assert all[j] == later[j - 1] && later[j - 1] in later;
    }
  }

  /** The releases of each series in a run are strictly increasing. */
  lemma {:induction false} RunIsIncreasing(reg: Registry, requests: seq<Request>)
    requires AllProper(reg.versions) && AllSee(reg, requests)
    ensures Increasing(ReleasedBy(reg, requests))
    decreases |requests|
  {
    if requests != [] {
      var next := Publish(reg, requests[0]);
      var later := ReleasedBy(next, requests[1..]);
      PublishKeepsProper(reg, requests[0]);
      RunIsIncreasing(next, requests[1..]);
      RunIsNewer(next, requests[1..]);
      if Released(reg, requests[0]).Some? {
        var v := Released(reg, requests[0]).value;
        assert v in next.versions;
        IncreasingCons(v, later);
      } else {
        assert ReleasedBy(reg, requests) == later;
      }
    }
  }
}
