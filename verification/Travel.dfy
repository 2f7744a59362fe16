/** Impossible travel by country: what a place's country is, when an event is
    flagged and when it is not. */
module Travel {
  import opened Schemas
  import opened Identity
  import opened Engine
  import opened Runs

  /** The country is what comes before the first dash, all of it where there is
      none. */
  lemma {:induction false} CountryExactly(c: string, rest: string)
    requires '-' !in c
    ensures Country(c) == c && Country(c + "-" + rest) == c
  {
    if c == "" {
      assert (c + "-" + rest)[0] == '-';
    } else {
      assert c == [c[0]] + c[1..];
      assert (c + "-" + rest)[1..] == c[1..] + "-" + rest;
      CountryExactly(c[1..], rest);
    }
  }

  /** Places of the form COUNTRY-REGION, the region possibly left out. */
  ghost predicate LiesIn(geo: string, country: string) {
    '-' !in country && (geo == country || exists region :: geo == country + "-" + region)
  }

  lemma CountryOf(geo: string, country: string)
    requires LiesIn(geo, country)
    ensures Country(geo) == country
  {
    if geo == country {
      CountryExactly(country, "");
    } else {
      var region :| geo == country + "-" + region;
      CountryExactly(country, region);
    }
  }

  /** Between two known places the check is exact: it flags another country within
      the hour, and no move inside a country however far or fast. */
  lemma FlaggedExactly(cfg: Config, p: Profile, e: Event, now: real, here: string, there: string)
    requires p.lastGeo != "" && LiesIn(p.lastGeo, there) && LiesIn(e.geo, here)
    ensures ImpossibleTravel(cfg, p, e, now) <==> cfg.impossibleTravel && here != there && now < p.lastGeoTs + 3600.0
  {
    CountryOf(p.lastGeo, there);
    CountryOf(e.geo, here);
  }

  /** An event from the reference's own country is never boosted, nor one of an
      identity without a reference. */
  lemma HomeIsNeverBoosted(cfg: Config, s: Snapshot, a: Attempt, country: string)
    requires s.profile.lastGeo == "" || (LiesIn(s.profile.lastGeo, country) && LiesIn(a.event.geo, country))
    ensures EventRisk(cfg, s, a) == EventRisk(cfg.(impossibleTravel := false), s, a)
  {
    if s.profile.lastGeo != "" {
      FlaggedExactly(cfg, s.profile, a.event, a.now, country, country);
    }
    var off := cfg.(impossibleTravel := false);
    assert Vector(cfg, s, a) == Vector(off, s, a);
    hide Vector, Dot, Country;
  }

  /** On runs: the event after a committed ALLOW in `there` is flagged exactly when
      it comes from another country less than an hour after it, and then its risk
      is a half higher, up to 1. */
  lemma FlaggedAfterAllowExactly(cfg: Config, ops: seq<Op>, i: nat, j: nat, a: Attempt, here: string, there: string)
    requires i < j <= |ops| && Decided(cfg, ops, i, Allow)
    requires forall k :: i < k < j ==> !Decided(cfg, ops, k, Allow)
    requires ops[i].attempt.event.geo != ""
    requires LiesIn(ops[i].attempt.event.geo, there) && LiesIn(a.event.geo, here)
    ensures var s := StateAt(cfg, ops, j);
            var plain := EventRisk(cfg.(impossibleTravel := false), s, a);
            EventRisk(cfg, s, a)
            == if cfg.impossibleTravel && here != there && a.now < ops[i].attempt.now + 3600.0
               then (if plain >= 0.5 then 1.0 else plain + 0.5) else plain
  {
    ReferenceIsLastAllow(cfg, ops, i, j);
    var s, off := StateAt(cfg, ops, j), cfg.(impossibleTravel := false);
    hide StateAt, Decided;
    FlaggedExactly(cfg, s.profile, a.event, a.now, here, there);
    assert Vector(cfg, s, a) == Vector(off, s, a);
    hide Vector, Dot, Country, LiesIn;
  }
}
