# Rack::GeoIPCountry in Dafny

A model of `Rack::GeoIPCountry`. This Rack middleware takes the client
address of a request, looks it up in a GeoIP city database, and writes the
result into the request environment as `X_GEOIP_*` entries. It can also
write the two legacy headers `Geo-Location` and `Geo-Country`. The model
also covers `Rack::GeoIPCountry::Mapping`, which runs the annotator only for
requests whose `PATH_INFO` matches a prefix.

Files:

- `ruby_regex.dfy` (module `RubyRegex`) gives the meaning of a literal
  pattern anchored with Ruby's `^`. `^` anchors at the start of every line,
  so the anchored pattern matches when some line of the string begins with
  the text.
- `geoip_country.dfy` (module `Rack`) holds the data model and the
  functions that specify each call: `Merge`, `ClientAddress`, `Scrub`,
  `Annotate` and `Route`. It also holds the three classes:
  - `Env` is the environment hash, changed in place.
  - `GeoIPCountry` has the fields `options` and `db`.
  - `Mapping` has the fields `prefix` and `geoipCountry`.
  Each `Call` method is proved to leave the environment exactly as
  `Annotate` (or, for `Mapping`, `Route` and `Annotate`) says.
- `geoip_country_facts.dfy` (module `GeoIPCountryFacts`) holds the
  properties of those functions, proved as lemmas.

Modelling choices:

- The environment maps strings to `Value`, which is a Ruby string or
  `nil`. `nil` is needed because a missing `REMOTE_ADDR` or a missing
  parameter gives a `nil` address. That address is still passed to the
  lookup and still written to `X_GEOIP_MATCHING_ADDRESS`.
- The GeoIP database is an abstract function from address to
  `Option<GeoRecord>`. `GeoIP.new` is an abstract function from the data
  file name to such a database.
- The request parameters (GET and POST merged, as `Rack::Request#[]` reads
  them) are a parameter of `Call`.
- The downstream `@app.call(env)` is not modelled. The application
  receives the `Env` object as `Call` leaves it.
- The options hash is a record with one optional entry per key the code
  reads. `:geo_header` counts only through `== true`, so a `bool` covers
  every behaviour. `:param_name` counts only through its truthiness, so
  `Option<string>` covers it.

Behaviour of the code worth noting:

- The `X_GEOIP_` scrub runs only when the lookup misses
  (lib/rack/geoipcountry.rb:35-38). It does not run on every request. On a
  hit, a forged reserved key that the middleware does not write survives
  (`SpoofSurvivesMatch`).
- The scrub does not touch `Geo-Location` or `Geo-Country`. On a miss,
  forged values of those headers survive (`MissKeepsGeoHeaders`).
- `X_GEOIP_MATCHING_ADDRESS` is written on a miss too (line 41). After a
  miss the environment holds two `X_GEOIP_` keys.
- The address is the `:param_name` parameter or `REMOTE_ADDR` (line 18);
  nothing else is read.
- `/^X_GEOIP_/` is line-anchored, so a key with a later line beginning
  `X_GEOIP_` is scrubbed too (`ReservedOnLaterLine`).
- When `:prefix` is absent, the Mapping pattern is `/^/`. It matches every
  request that has a `PATH_INFO` (`RouteEmptyPrefix`). A request without
  `PATH_INFO` never matches (`RouteNeedsPath`).

## Model

| member | source | states |
|---|---|---|
| `RubyRegex.Search` | lib/rack/geoipcountry.rb:37 | the search from position i finds a match exactly when some line start at or after i begins with the literal text |
| `RubyRegex.LineAnchored` | lib/rack/geoipcountry.rb:37 | `s =~ /^p/` holds exactly when some line of s begins with p |
| `RubyRegex.PrefixMatches` | lib/rack/geoipcountry.rb:37 | a string that begins with p matches `/^p/` |
| `RubyRegex.SingleLine` | lib/rack/geoipcountry.rb:37 | on a string with no newline, `/^p/` matches exactly when the string begins with p (both directions) |
| `RubyRegex.LaterLineMatches` | lib/rack/geoipcountry.rb:37 | a later line that begins with p is enough for a match |
| `Rack.ReservedSingleLine` | lib/rack/geoipcountry.rb:37 | a key with no newline is scrubbed exactly when it begins with `X_GEOIP_` |
| `Rack.Scrub` | lib/rack/geoipcountry.rb:37 | of the keys with no newline, `reject!` keeps exactly those that do not begin with `X_GEOIP_` |
| `Rack.Env.RejectReserved` | lib/rack/geoipcountry.rb:37 | the in-place `reject!` leaves the environment equal to its scrubbed old value |
| `Rack.GeoIPCountry.constructor` | lib/rack/geoipcountry.rb:6-15 | the stored options are the caller's options merged over the defaults, and the database is the one opened from the merged `:data_file` |
| `Rack.GeoIPCountry.Call` | lib/rack/geoipcountry.rb:17-44 | the environment handed on is `Annotate` of the old environment |
| `Rack.Mapping.constructor` | lib/rack/geoipcountry.rb:47-50 | the prefix is the caller's `:prefix` (empty when absent), and the annotator is built from the options with `:prefix` removed |
| `Rack.Mapping.Call` | lib/rack/geoipcountry.rb:52-58 | when `PATH_INFO` matches the prefix, the environment is annotated as `GeoIPCountry#call` does; otherwise it is left exactly as it was |
| `GeoIPCountryFacts.MergeDefaults` | lib/rack/geoipcountry.rb:7-12 | with no options: the data file is /usr/local/share/GeoIP/GeoCity.dat, no parameter name, legacy headers on |
| `GeoIPCountryFacts.MergeOverrides` | lib/rack/geoipcountry.rb:7-12 | every supplied option overrides its default, and every option left out keeps its default |
| `GeoIPCountryFacts.PrefixNotAnOption` | lib/rack/geoipcountry.rb:48-49 | removing `:prefix` does not change the merged options the annotator reads |
| `GeoIPCountryFacts.WrittenKeysReserved` | lib/rack/geoipcountry.rb:22-41 | the nine `X_GEOIP_` keys the middleware writes all match the scrub pattern |
| `GeoIPCountryFacts.OtherKeysUnreserved` | lib/rack/geoipcountry.rb:18-37 | `Geo-Location`, `Geo-Country`, `REMOTE_ADDR` and `PATH_INFO` do not match the scrub pattern |
| `GeoIPCountryFacts.ReservedOnLaterLine` | lib/rack/geoipcountry.rb:37 | a key with a later line beginning `X_GEOIP_` is reserved and is removed by the scrub |
| `GeoIPCountryFacts.AddressSource` | lib/rack/geoipcountry.rb:18 | with `:param_name` set, the address is that parameter (nil if absent) and depends only on the named parameter; otherwise it is `env['REMOTE_ADDR']` and does not depend on the parameters |
| `GeoIPCountryFacts.MatchingAddressIsLookedUp` | lib/rack/geoipcountry.rb:18-41 | in both branches `X_GEOIP_MATCHING_ADDRESS` is present and equals the address passed to the lookup, overwriting any earlier value |
| `GeoIPCountryFacts.MatchFields` | lib/rack/geoipcountry.rb:21-29 | on a hit `X_GEOIP_MATCHED` is "1" and the seven `X_GEOIP_` fields equal the record's fields |
| `GeoIPCountryFacts.MatchGeoHeaders` | lib/rack/geoipcountry.rb:31-34 | on a hit with `:geo_header` true, `Geo-Location` is latitude;longitude and `Geo-Country` is the two-letter code; with it false, both keep their earlier value or absence |
| `GeoIPCountryFacts.MatchFrame` | lib/rack/geoipcountry.rb:21-41 | on a hit the keys are the old keys plus the written ones, and every key not written keeps its value |
| `GeoIPCountryFacts.SpoofSurvivesMatch` | lib/rack/geoipcountry.rb:21-39 | on a hit a forged `X_GEOIP_LATITUDE`, which is reserved but not written, reaches the application unchanged |
| `GeoIPCountryFacts.MissScrubs` | lib/rack/geoipcountry.rb:35-41 | on a miss `X_GEOIP_MATCHED` is "0", the only reserved keys left are it and `X_GEOIP_MATCHING_ADDRESS`, and every other key keeps its value or absence |
| `GeoIPCountryFacts.MissKeepsGeoHeaders` | lib/rack/geoipcountry.rb:35-39 | on a miss, any earlier `Geo-Location` and `Geo-Country` survive unchanged |
| `GeoIPCountryFacts.OutsideKeysKept` | lib/rack/geoipcountry.rb:21-41 | in both branches, a key outside the reserved namespace other than the two legacy headers keeps its value or absence |
| `GeoIPCountryFacts.AddressStable` | lib/rack/geoipcountry.rb:18-41 | the call does not change the address it would look up |
| `GeoIPCountryFacts.AnnotateIdempotent` | lib/rack/geoipcountry.rb:17-41 | annotating an already annotated environment with the same options, database and parameters changes nothing |
| `GeoIPCountryFacts.RouteNeedsPath` | lib/rack/geoipcountry.rb:53 | a request without `PATH_INFO` is never routed to the annotator |
| `GeoIPCountryFacts.RouteEmptyPrefix` | lib/rack/geoipcountry.rb:48-53 | with no `:prefix`, every request that has a `PATH_INFO` is routed to the annotator |
| `GeoIPCountryFacts.RouteSingleLine` | lib/rack/geoipcountry.rb:53 | for a path with no newline, the request is routed exactly when the path begins with the prefix |

## Left out

- The GeoIP library (`GeoIP.new`, `db.country`) is not modelled. It is a
  reader for a binary database, and here it is an abstract function.
  Failure to open the data file is not modelled either, since it is file
  input at start-up.
- Parsing of request parameters by `Rack::Request` is not modelled. The
  merged GET/POST parameters are given as a map of strings. Array and hash
  parameter values are not represented. When `:param_name` is set,
  `Request.new(env)[name]` (line 18) reads the parameters out of the
  environment (`QUERY_STRING`, `rack.input`). It caches them back into the
  environment under `rack.request.query_string`, `rack.request.query_hash`,
  `rack.request.form_input`, `rack.request.form_hash` and
  `rack.request.form_vars`. It can also raise, for a missing `rack.input` or
  malformed parameters. Neither the cached keys nor the raise is modelled.
  So with `:param_name` set, the frame lemmas (`MatchFrame`, `MissScrubs`,
  `OutsideKeysKept`) do not cover those `rack.request.*` keys.
- The downstream `@app.call(env)` and the response it returns are not
  modelled. `Call` returns nothing, and the application sees the `Env`
  object afterwards.
- Rack.Mapping.Call: the `:prefix` text is matched literally, line-anchored
  as Ruby's `^` is. Regular-expression metacharacters in the prefix, and a
  `Regexp` object given as the prefix, are not modelled.
- Latitude and longitude are floats in the record. Here they are the text
  that Ruby's interpolation prints, joined around ";".
- Rack.Mapping.constructor: `options.delete(:prefix)` also removes
  `:prefix` from the caller's own hash. That side effect on the caller is
  not modelled.
- Option values of other types are not modelled: a non-string
  `:param_name` (which `Rack::Request#[]` converts with `to_s`), or
  `:param_name => false`, which behaves like nil. Options the middleware
  never reads (such as `:method` and `:field`) are not modelled.
- A record field that is nil is not modelled. Every field is a string,
  possibly empty.
- Concurrency between requests is not modelled. Each request has its own
  environment, and the database is only read.
- The integration test file is not modelled. It needs a real database and
  Rack::Test, and it only checks the HTTP status and the body.
