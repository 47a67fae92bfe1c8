/** What `Rack::GeoIPCountry#call` and `Mapping#call` promise, proved about
    the functions that specify them. */
module GeoIPCountryFacts {
  import RubyRegex
  import opened Rack

  // ---- options ----

  /** With no options the defaults apply: no parameter, legacy headers on. */
  lemma MergeDefaults()
    ensures Merge(NoOptions) == Options("/usr/local/share/GeoIP/GeoCity.dat", None, true)
  {
  }

  /** Every option the caller supplies overrides its default; every option
      left out keeps it. */
  lemma MergeOverrides(h: OptionsHash)
    ensures h.dataFile.Some? ==> Merge(h).dataFile == h.dataFile.value
    ensures h.dataFile.None? ==> Merge(h).dataFile == DefaultDataFile
    ensures h.paramName.Some? ==> Merge(h).paramName == h.paramName.value
    ensures h.paramName.None? ==> Merge(h).paramName == None
    ensures h.geoHeader.Some? ==> Merge(h).geoHeader == h.geoHeader.value
    ensures h.geoHeader.None? ==> Merge(h).geoHeader
  {
  }

  /** `:prefix` is not read by the annotator, so the one `Mapping` builds
      from the hash without it behaves as one built from the whole hash. */
  lemma PrefixNotAnOption(h: OptionsHash)
    ensures Merge(h.(prefix := None)) == Merge(h)
  {
  }

  // ---- the reserved namespace ----

  /** The X_GEOIP_ keys the middleware writes are all in the reserved
      namespace. */
  lemma WrittenKeysReserved()
    ensures Reserved(Matched) && Reserved(CountryCode) && Reserved(CountryCode3)
    ensures Reserved(Country) && Reserved(Continent) && Reserved(Region)
    ensures Reserved(City) && Reserved(PostalCode) && Reserved(MatchingAddress)
  {
    RubyRegex.PrefixMatches(Matched, ReservedPrefix);
    RubyRegex.PrefixMatches(CountryCode, ReservedPrefix);
    RubyRegex.PrefixMatches(CountryCode3, ReservedPrefix);
    RubyRegex.PrefixMatches(Country, ReservedPrefix);
    RubyRegex.PrefixMatches(Continent, ReservedPrefix);
    RubyRegex.PrefixMatches(Region, ReservedPrefix);
    RubyRegex.PrefixMatches(City, ReservedPrefix);
    RubyRegex.PrefixMatches(PostalCode, ReservedPrefix);
    RubyRegex.PrefixMatches(MatchingAddress, ReservedPrefix);
  }

  /** The two legacy `Geo-*` headers, and the keys read for the address and
      the route, lie outside the namespace. */
  lemma OtherKeysUnreserved()
    ensures !Reserved(GeoLocation) && !Reserved(GeoCountry)
    ensures !Reserved(RemoteAddr) && !Reserved(PathInfo)
  {
    RubyRegex.SingleLine(GeoLocation, ReservedPrefix);
    assert GeoLocation[0] != ReservedPrefix[0];
    RubyRegex.SingleLine(GeoCountry, ReservedPrefix);
    assert GeoCountry[0] != ReservedPrefix[0];
    RubyRegex.SingleLine(RemoteAddr, ReservedPrefix);
    assert RemoteAddr[0] != ReservedPrefix[0];
    RubyRegex.SingleLine(PathInfo, ReservedPrefix);
    assert PathInfo[0] != ReservedPrefix[0];
  }

  /** Because `^` anchors at every line, a key with a later line that begins
      with X_GEOIP_ is reserved too, and the scrub removes it. */
  lemma ReservedOnLaterLine(head: string, tail: string, env: map<string, Value>)
    ensures Reserved(head + "\n" + ReservedPrefix + tail)
    ensures head + "\n" + ReservedPrefix + tail !in Scrub(env)
  {
    RubyRegex.LaterLineMatches(head, ReservedPrefix, tail);
  }

  // ---- the address ----

  /** The address is the named parameter when `:param_name` is set (the
      environment plays no part) and `REMOTE_ADDR` otherwise (the parameters
      play no part). */
  lemma AddressSource(o: Options, env1: map<string, Value>, params1: map<string, string>,
                      env2: map<string, Value>, params2: map<string, string>)
    ensures o.paramName.Some? && (o.paramName.value in params1 <==> o.paramName.value in params2)
            && (o.paramName.value in params1 ==> params1[o.paramName.value] == params2[o.paramName.value])
            ==> ClientAddress(o, env1, params1) == ClientAddress(o, env2, params2)
    ensures o.paramName.None? && Get(env1, RemoteAddr) == Get(env2, RemoteAddr)
            ==> ClientAddress(o, env1, params1) == ClientAddress(o, env2, params2)
    ensures o.paramName.Some? ==>
            ClientAddress(o, env1, params1) ==
              (if o.paramName.value in params1 then Str(params1[o.paramName.value]) else Nil)
    ensures o.paramName.None? ==> ClientAddress(o, env1, params1) == Get(env1, RemoteAddr)
  {
  }

  /** In both branches `X_GEOIP_MATCHING_ADDRESS` is the address that was
      looked up, whatever the environment held under that key before. */
  lemma MatchingAddressIsLookedUp(o: Options, db: Database, params: map<string, string>, env: map<string, Value>)
    ensures MatchingAddress in Annotate(o, db, params, env)
    ensures Annotate(o, db, params, env)[MatchingAddress] == ClientAddress(o, env, params)
  {
  }

  // ---- a match ----

  /** On a hit the match flag is "1" and the seven record fields are
      copied. */
  lemma MatchFields(o: Options, db: Database, params: map<string, string>, env: map<string, Value>, rec: GeoRecord)
    requires db(ClientAddress(o, env, params)) == Some(rec)
    ensures var r := Annotate(o, db, params, env);
      && Get(r, Matched) == Str("1")
      && Get(r, CountryCode) == Str(rec.countryCode2)
      && Get(r, CountryCode3) == Str(rec.countryCode3)
      && Get(r, Country) == Str(rec.countryName)
      && Get(r, Continent) == Str(rec.continentCode)
      && Get(r, Region) == Str(rec.regionName)
      && Get(r, City) == Str(rec.cityName)
      && Get(r, PostalCode) == Str(rec.postalCode)
  {
  }

  /** On a hit `Geo-Location` and `Geo-Country` are written exactly when
      `:geo_header` is true; otherwise they keep their value or absence. */
  lemma MatchGeoHeaders(o: Options, db: Database, params: map<string, string>, env: map<string, Value>, rec: GeoRecord)
    requires db(ClientAddress(o, env, params)) == Some(rec)
    ensures var r := Annotate(o, db, params, env);
      o.geoHeader ==>
        && GeoLocation in r && r[GeoLocation] == Str(rec.latitude + ";" + rec.longitude)
        && GeoCountry in r && r[GeoCountry] == Str(rec.countryCode2)
    ensures var r := Annotate(o, db, params, env);
      !o.geoHeader ==>
        && (GeoLocation in r <==> GeoLocation in env) && Get(r, GeoLocation) == Get(env, GeoLocation)
        && (GeoCountry in r <==> GeoCountry in env) && Get(r, GeoCountry) == Get(env, GeoCountry)
  {
  }

  /** On a hit nothing else changes: the keys are the old ones plus the
      written ones, and every key outside the written set keeps its value,
      reserved or not, for no scrub runs on this branch. */
  lemma MatchFrame(o: Options, db: Database, params: map<string, string>, env: map<string, Value>, rec: GeoRecord)
    requires db(ClientAddress(o, env, params)) == Some(rec)
    ensures forall k :: k in Annotate(o, db, params, env) <==> k in env || WrittenOnMatch(o, k)
    ensures forall k :: k in env && !WrittenOnMatch(o, k) ==> Annotate(o, db, params, env)[k] == env[k]
  {
  }

  /** The anti-spoofing gap on a hit: a forged reserved header that the
      middleware does not write, such as `X_GEOIP_LATITUDE`, reaches the
      downstream application unchanged. */
  lemma SpoofSurvivesMatch(o: Options, db: Database, params: map<string, string>, env: map<string, Value>, rec: GeoRecord)
    requires db(ClientAddress(o, env, params)) == Some(rec)
    ensures Reserved("X_GEOIP_LATITUDE") && !WrittenOnMatch(o, "X_GEOIP_LATITUDE")
    ensures var r := Annotate(o, db, params, env);
      ("X_GEOIP_LATITUDE" in r <==> "X_GEOIP_LATITUDE" in env)
      && Get(r, "X_GEOIP_LATITUDE") == Get(env, "X_GEOIP_LATITUDE")
  {
    RubyRegex.PrefixMatches("X_GEOIP_LATITUDE", ReservedPrefix);
  }

  // ---- a miss ----

  /** On a miss the only reserved keys left are the match flag, now "0",
      and the matching address; every key outside the namespace keeps its
      value or absence. */
  lemma MissScrubs(o: Options, db: Database, params: map<string, string>, env: map<string, Value>)
    requires db(ClientAddress(o, env, params)) == None
    ensures var r := Annotate(o, db, params, env);
      Matched in r && r[Matched] == Str("0")
    ensures var r := Annotate(o, db, params, env);
      forall k :: k in r && Reserved(k) ==> k == Matched || k == MatchingAddress
    ensures var r := Annotate(o, db, params, env);
      forall k :: !Reserved(k) ==> (k in r <==> k in env) && Get(r, k) == Get(env, k)
    ensures Annotate(o, db, params, env).Keys
            == (set k | k in env && !Reserved(k)) + {Matched, MatchingAddress}
  {
    WrittenKeysReserved();
    var address := ClientAddress(o, env, params);
    var r := Annotate(o, db, params, env);
    assert r == Scrub(env)[Matched := Str("0")][MatchingAddress := address];
    assert forall k :: !Reserved(k) ==> (k in r <==> k in env) && Get(r, k) == Get(env, k) by {
      ScrubKeeps(env);
    }
    assert r.Keys == (set k | k in env && !Reserved(k)) + {Matched, MatchingAddress} by {
      ScrubKeeps(env);
    }
  }

  /** The scrub keeps exactly the unreserved keys, with their values. */
  lemma ScrubKeeps(env: map<string, Value>)
    ensures forall k :: k in Scrub(env) <==> k in env && !Reserved(k)
    ensures forall k :: k in Scrub(env) ==> Scrub(env)[k] == env[k]
  {
  }

  /** On a miss the legacy headers lie outside the namespace, so forged
      `Geo-Location` and `Geo-Country` headers reach the application. */
  lemma MissKeepsGeoHeaders(o: Options, db: Database, params: map<string, string>, env: map<string, Value>)
    requires db(ClientAddress(o, env, params)) == None
    ensures var r := Annotate(o, db, params, env);
      && (GeoLocation in r <==> GeoLocation in env) && Get(r, GeoLocation) == Get(env, GeoLocation)
      && (GeoCountry in r <==> GeoCountry in env) && Get(r, GeoCountry) == Get(env, GeoCountry)
  {
    OtherKeysUnreserved();
  }

  // ---- the whole call ----

  /** In either branch a key outside the namespace, other than the two
      legacy headers, keeps its value or absence. */
  lemma OutsideKeysKept(o: Options, db: Database, params: map<string, string>, env: map<string, Value>, k: string)
    requires !Reserved(k) && k != GeoLocation && k != GeoCountry
    ensures var r := Annotate(o, db, params, env);
      (k in r <==> k in env) && Get(r, k) == Get(env, k)
  {
    WrittenKeysReserved();
    var address := ClientAddress(o, env, params);
    match db(address) {
      case Some(rec) =>
        assert !WrittenOnMatch(o, k);
        MatchFrame(o, db, params, env, rec);
      case None =>
        MissScrubs(o, db, params, env);
    }
  }

  /** The annotator does not touch what it reads: the address, and so the
      lookup, is the same after a call as before. */
  lemma AddressStable(o: Options, db: Database, params: map<string, string>, env: map<string, Value>)
    ensures ClientAddress(o, Annotate(o, db, params, env), params) == ClientAddress(o, env, params)
  {
    OtherKeysUnreserved();
    OutsideKeysKept(o, db, params, env, RemoteAddr);
  }

  /** Running the annotator twice on one request (it mounted twice, or
      behind a Mapping and on its own) leaves what one run leaves. */
  lemma AnnotateIdempotent(o: Options, db: Database, params: map<string, string>, env: map<string, Value>)
    ensures Annotate(o, db, params, Annotate(o, db, params, env)) == Annotate(o, db, params, env)
  {
    AddressStable(o, db, params, env);
    var address := ClientAddress(o, env, params);
    var once := Annotate(o, db, params, env);
    var twice := Annotate(o, db, params, once);
    match db(address) {
      case Some(rec) =>
        MatchFrame(o, db, params, env, rec);
        MatchFrame(o, db, params, once, rec);
        forall k | k in once && WrittenOnMatch(o, k)
          ensures twice[k] == once[k]
        {
          MatchFields(o, db, params, env, rec);
          MatchFields(o, db, params, once, rec);
          MatchGeoHeaders(o, db, params, env, rec);
          MatchGeoHeaders(o, db, params, once, rec);
        }
        assert twice.Keys == once.Keys;
      case None =>
        WrittenKeysReserved();
        assert twice == Scrub(once)[Matched := Str("0")][MatchingAddress := address];
        assert twice.Keys == once.Keys;
    }
  }

  // ---- the path filter ----

  /** A request without `PATH_INFO` is never annotated by a Mapping. */
  lemma RouteNeedsPath(prefix: string, env: map<string, Value>)
    requires Get(env, PathInfo) == Nil
    ensures !Route(prefix, env)
  {
  }

  /** A Mapping built without `:prefix` has the pattern `/^/`, which every
      path matches. */
  lemma RouteEmptyPrefix(env: map<string, Value>)
    ensures Route(Override("", NoOptions.prefix), env) <==> Get(env, PathInfo).Str?
  {
    if Get(env, PathInfo).Str? {
      RubyRegex.PrefixMatches(Get(env, PathInfo).text, "");
    }
  }

  /** For a path of one line, the route test is "the path begins with the
      prefix". */
  lemma RouteSingleLine(prefix: string, env: map<string, Value>, path: string)
    requires Get(env, PathInfo) == Str(path)
    requires '\n' !in path
    ensures Route(prefix, env) <==> prefix <= path
  {
    RubyRegex.SingleLine(path, prefix);
  }
}
