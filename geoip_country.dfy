/** Rack::GeoIPCountry, a Rack middleware that looks the client address up
    in a GeoIP database and annotates the request environment with the
    result, and Rack::GeoIPCountry::Mapping, which runs it only for request
    paths that match a prefix.

    The environment is a Ruby Hash shared with the rest of the request
    pipeline and changed in place: here an `Env` object whose `entries` the
    methods reassign. The pure functions below say what each call leaves in
    the environment; the methods are proved to do exactly that. */
module Rack {
  import RubyRegex

  datatype Option<T> = None | Some(value: T)

  /** A value of the request environment: a Ruby string or nil. */
  datatype Value = Nil | Str(text: string)

  /** The record a successful lookup returns. Latitude and longitude are
      kept as the text they are printed as. */
  datatype GeoRecord = GeoRecord(
    countryCode2: string,
    countryCode3: string,
    countryName: string,
    continentCode: string,
    regionName: string,
    cityName: string,
    postalCode: string,
    latitude: string,
    longitude: string)

  /** An opened GeoIP database: `db.country(address)`, nil on a miss. */
  type Database = Value -> Option<GeoRecord>

  /** The options hash a caller passes to `new`. `None` is a key the caller
      left out; for `paramName`, `Some(None)` is `:param_name => nil`. */
  datatype OptionsHash = OptionsHash(
    dataFile: Option<string>,
    paramName: Option<Option<string>>,
    geoHeader: Option<bool>,
    prefix: Option<string>)

  const NoOptions: OptionsHash := OptionsHash(None, None, None, None)

  /** The merged `@options` the middleware reads. */
  datatype Options = Options(dataFile: string, paramName: Option<string>, geoHeader: bool)

  const DefaultDataFile: string := "/usr/local/share/GeoIP/GeoCity.dat"
  const Defaults: Options := Options(DefaultDataFile, None, true)

  // Environment keys the middleware reads and writes.
  const RemoteAddr: string := "REMOTE_ADDR"
  const PathInfo: string := "PATH_INFO"
  const ReservedPrefix: string := "X_GEOIP_"
  const Matched: string := "X_GEOIP_MATCHED"
  const CountryCode: string := "X_GEOIP_COUNTRY_CODE"
  const CountryCode3: string := "X_GEOIP_COUNTRY_CODE3"
  const Country: string := "X_GEOIP_COUNTRY"
  const Continent: string := "X_GEOIP_CONTINENT"
  const Region: string := "X_GEOIP_REGION"
  const City: string := "X_GEOIP_CITY"
  const PostalCode: string := "X_GEOIP_POSTAL_CODE"
  const MatchingAddress: string := "X_GEOIP_MATCHING_ADDRESS"
  const GeoLocation: string := "Geo-Location"
  const GeoCountry: string := "Geo-Country"

  /** One key of `default_options.merge(options)`: the caller's value wins. */
  function Override<T>(default: T, given: Option<T>): T
  {
    match given
    case Some(v) => v
    case None => default
  }

  /** `default_options.merge(options)`, restricted to the keys that are read. */
  function Merge(h: OptionsHash): Options
  {
    Options(
      Override(Defaults.dataFile, h.dataFile),
      Override(Defaults.paramName, h.paramName),
      Override(Defaults.geoHeader, h.geoHeader))
  }

  /** `env[key]`: nil when the key is missing. */
  function Get(env: map<string, Value>, key: string): Value
  {
    if key in env then env[key] else Nil
  }

  /** `key =~ /^X_GEOIP_/`: some line of the key begins with the prefix. */
  predicate Reserved(key: string)
  {
    RubyRegex.LineAnchored(key, ReservedPrefix)
  }

  /** For a key of one line, reserved means "begins with X_GEOIP_". */
  lemma ReservedSingleLine(key: string)
    requires '\n' !in key
    ensures Reserved(key) <==> ReservedPrefix <= key
  {
    RubyRegex.SingleLine(key, ReservedPrefix);
  }

  /** `env.reject! { |key, value| key =~ /^X_GEOIP_/ }`. Of the keys of one
      line, exactly those that do not begin with X_GEOIP_ survive. */
  function Scrub(env: map<string, Value>): (r: map<string, Value>)
    ensures forall k :: k in env && '\n' !in k ==> (k in r <==> !(ReservedPrefix <= k))
  {
    assert forall k | k in env && '\n' !in k :: Reserved(k) <==> ReservedPrefix <= k by {
      forall k | k in env && '\n' !in k
        ensures Reserved(k) <==> ReservedPrefix <= k
      {
        ReservedSingleLine(k);
      }
    }
    map k | k in env && !Reserved(k) :: env[k]
  }

  /** The address looked up: the request parameter named by `:param_name`
      when that option is set, else `env['REMOTE_ADDR']`. `params` are the
      request's GET and POST parameters merged. */
  function ClientAddress(o: Options, env: map<string, Value>, params: map<string, string>): Value
  {
    match o.paramName
    case Some(name) => if name in params then Str(params[name]) else Nil
    case None => Get(env, RemoteAddr)
  }

  /** `key` is one of the keys a matched call writes. */
  predicate WrittenOnMatch(o: Options, key: string)
  {
    || key == Matched || key == CountryCode || key == CountryCode3 || key == Country
    || key == Continent || key == Region || key == City || key == PostalCode
    || key == MatchingAddress
    || (o.geoHeader && (key == GeoLocation || key == GeoCountry))
  }

  /** The environment after the match branch. */
  function MatchedEnv(o: Options, rec: GeoRecord, env: map<string, Value>): map<string, Value>
  {
    var e := env[Matched := Str("1")]
      [CountryCode := Str(rec.countryCode2)]
      [CountryCode3 := Str(rec.countryCode3)]
      [Country := Str(rec.countryName)]
      [Continent := Str(rec.continentCode)]
      [Region := Str(rec.regionName)]
      [City := Str(rec.cityName)]
      [PostalCode := Str(rec.postalCode)];
    if o.geoHeader then
      e[GeoLocation := Str(rec.latitude + ";" + rec.longitude)][GeoCountry := Str(rec.countryCode2)]
    else e
  }

  /** The environment after the no-match branch. */
  function UnmatchedEnv(env: map<string, Value>): map<string, Value>
  {
    Scrub(env)[Matched := Str("0")]
  }

  /** What `GeoIPCountry#call` leaves in the environment it hands on. */
  function Annotate(o: Options, db: Database, params: map<string, string>, env: map<string, Value>): map<string, Value>
  {
    var address := ClientAddress(o, env, params);
    var annotated :=
      match db(address)
      case Some(rec) => MatchedEnv(o, rec, env)
      case None => UnmatchedEnv(env);
    annotated[MatchingAddress := address]
  }

  /** `env['PATH_INFO'] =~ /^#{prefix}/`; nil never matches. */
  predicate Route(prefix: string, env: map<string, Value>)
  {
    match Get(env, PathInfo)
    case Str(path) => RubyRegex.LineAnchored(path, prefix)
    case Nil => false
  }

  /** The request environment, a hash changed in place. */
  class Env {
    var entries: map<string, Value>

    constructor (entries: map<string, Value>)
      ensures this.entries == entries
    {
      this.entries := entries;
    }

    /** `reject! { |key, value| key =~ /^X_GEOIP_/ }`, one key at a time. */
    method RejectReserved()
      modifies this
      ensures entries == Scrub(old(entries))
    {
      var pending := entries.Keys;
      while pending != {}
        invariant forall k :: k in entries <==> k in old(entries) && (k in pending || !Reserved(k))
        invariant forall k :: k in entries ==> entries[k] == old(entries)[k]
        decreases pending
      {
        var key :| key in pending;
        if Reserved(key) {
          entries := entries - {key};
        }
        pending := pending - {key};
      }
      assert entries.Keys == Scrub(old(entries)).Keys;
    }
  }

  class GeoIPCountry {
    const options: Options
    const db: Database

    /** `initialize`: merge the options over the defaults and open the
        database named by `:data_file` (`geoip` stands for `GeoIP.new`). */
    constructor (geoip: string -> Database, h: OptionsHash)
      ensures options == Merge(h)
      ensures db == geoip(options.dataFile)
    {
      var merged := Merge(h);
      options := merged;
      db := geoip(merged.dataFile);
    }

    /** `call(env)`: annotate `env` in place; the downstream application then
        receives `env`. */
    method Call(env: Env, params: map<string, string>)
      modifies env
      ensures env.entries == Annotate(options, db, params, old(env.entries))
    {
      var address := ClientAddress(options, env.entries, params);
      var res := db(address);
      match res {
        case Some(rec) =>
          env.entries := env.entries[Matched := Str("1")];
          env.entries := env.entries[CountryCode := Str(rec.countryCode2)];
          env.entries := env.entries[CountryCode3 := Str(rec.countryCode3)];
          env.entries := env.entries[Country := Str(rec.countryName)];
          env.entries := env.entries[Continent := Str(rec.continentCode)];
          env.entries := env.entries[Region := Str(rec.regionName)];
          env.entries := env.entries[City := Str(rec.cityName)];
          env.entries := env.entries[PostalCode := Str(rec.postalCode)];
          if options.geoHeader {
            env.entries := env.entries[GeoLocation := Str(rec.latitude + ";" + rec.longitude)];
            env.entries := env.entries[GeoCountry := Str(rec.countryCode2)];
          }
        case None =>
          env.RejectReserved();
          env.entries := env.entries[Matched := Str("0")];
      }
      env.entries := env.entries[MatchingAddress := address];
    }
  }

  class Mapping {
    const prefix: string
    const geoipCountry: GeoIPCountry

    /** `initialize`: take `:prefix` out of the options (nil, the empty
        pattern, when absent) and build the annotator from the rest. */
    constructor (geoip: string -> Database, h: OptionsHash)
      ensures prefix == Override("", h.prefix)
      ensures geoipCountry.options == Merge(h.(prefix := None))
      ensures geoipCountry.db == geoip(geoipCountry.options.dataFile)
    {
      prefix := Override("", h.prefix);
      geoipCountry := new GeoIPCountry(geoip, h.(prefix := None));
    }

    /** `call(env)`: annotate only when the path matches the prefix. */
    method Call(env: Env, params: map<string, string>)
      modifies env
      ensures Route(prefix, old(env.entries)) ==>
        env.entries == Annotate(geoipCountry.options, geoipCountry.db, params, old(env.entries))
      ensures !Route(prefix, old(env.entries)) ==> env.entries == old(env.entries)
    {
      if Route(prefix, env.entries) {
        geoipCountry.Call(env, params);
      }
    }
  }
}
