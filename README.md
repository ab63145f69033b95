# Venue Ninja, modelled in Dafny

Venue Ninja is a small Spring Boot service. It answers "where should I sit?"
for ten well-known venues. This project models its core and proves properties
of that model:

- **The two beans.** `SeatRecommendation` has an optional generated id and five
  text fields. `Venue` has an id, a name and a nullable list of
  recommendations. Both are Dafny classes with the beans' fields. Constructors,
  getters and setters state exactly which fields they set, and that the other
  fields stay as they were. Java's nullable references are `Option`s.
- **The in-memory venue store (`VenueService`).**
  - It is a class holding `venueMap: map<string, Venue>`.
  - The constructor seeds ten venues by successive puts. Its postcondition pins
    the store's contents, including every recommendation, to the seeding
    table, and it establishes the invariant `Valid()`: every key is the id of
    the venue stored under it.
  - `GetAllVenues` copies the values in an unspecified order; the order is the
    ghost out-parameter `keys`.
  - `GetVenueById` is an exact, case-sensitive lookup that returns an `Option`.
- **The venue controller** (the one in the root package). Listing passes the
  store's list through. A lookup that finds nothing becomes a NOT_FOUND
  response with reason "Venue not found".
- **The database URL normaliser** (`transformDatabaseUrl`).
  - It picks a rewrite by prefix: `jdbc:`, then `postgresql://`, then
    `postgres://`.
  - Every accepted URL gets `?sslmode=require` appended.
  - It refuses a missing or empty URL, and any other scheme, with two distinct
    errors.
  - Java's `String.replace` is modelled by `ReplaceAll`. It replaces every
    occurrence, left to right, without overlaps.

Files: `wrappers.dfy` (`Option`, `Result`), `seat_recommendation.dfy`,
`venue.dfy`, `venue_service.dfy`, `venue_controller.dfy`,
`database_config.dfy`.

## Model

| member | source | states |
|---|---|---|
| SeatRecommendations.SeatRecommendation.Empty | src/main/java/com/venueninja/model/SeatRecommendation.java:18 | the no-argument constructor leaves all six fields null |
| SeatRecommendations.SeatRecommendation.constructor | src/main/java/com/venueninja/model/SeatRecommendation.java:20-26 | section, category, reason, estimatedPrice and tip are stored in argument order; the id stays null |
| SeatRecommendations.SeatRecommendation.GetId | src/main/java/com/venueninja/model/SeatRecommendation.java:29 | returns the stored id and changes nothing |
| SeatRecommendations.SeatRecommendation.SetId | src/main/java/com/venueninja/model/SeatRecommendation.java:30 | the id becomes the argument; the five other fields are unchanged |
| SeatRecommendations.SeatRecommendation.GetSection | src/main/java/com/venueninja/model/SeatRecommendation.java:32 | returns the stored section and changes nothing |
| SeatRecommendations.SeatRecommendation.SetSection | src/main/java/com/venueninja/model/SeatRecommendation.java:33 | only the section changes |
| SeatRecommendations.SeatRecommendation.GetCategory | src/main/java/com/venueninja/model/SeatRecommendation.java:35 | returns the stored category and changes nothing |
| SeatRecommendations.SeatRecommendation.SetCategory | src/main/java/com/venueninja/model/SeatRecommendation.java:36 | only the category changes |
| SeatRecommendations.SeatRecommendation.GetReason | src/main/java/com/venueninja/model/SeatRecommendation.java:38 | returns the stored reason and changes nothing |
| SeatRecommendations.SeatRecommendation.SetReason | src/main/java/com/venueninja/model/SeatRecommendation.java:39 | only the reason changes |
| SeatRecommendations.SeatRecommendation.GetEstimatedPrice | src/main/java/com/venueninja/model/SeatRecommendation.java:41 | returns the stored price and changes nothing |
| SeatRecommendations.SeatRecommendation.SetEstimatedPrice | src/main/java/com/venueninja/model/SeatRecommendation.java:42 | only the price changes |
| SeatRecommendations.SeatRecommendation.GetTip | src/main/java/com/venueninja/model/SeatRecommendation.java:44 | returns the stored tip and changes nothing |
| SeatRecommendations.SeatRecommendation.SetTip | src/main/java/com/venueninja/model/SeatRecommendation.java:45 | only the tip changes |
| SeatRecommendations.SetThenGet | src/main/java/com/venueninja/model/SeatRecommendation.java:32-33 | a getter returns what its setter just stored; the other fields keep their earlier values |
| Venues.Venue.Empty | src/main/java/com/venueninja/model/Venue.java:18 | the no-argument constructor leaves id, name and recommendations null |
| Venues.Venue.constructor | src/main/java/com/venueninja/model/Venue.java:20-24 | id, name and the list (possibly empty or null) are stored exactly as given |
| Venues.Venue.GetId | src/main/java/com/venueninja/model/Venue.java:27 | returns the stored id and changes nothing |
| Venues.Venue.SetId | src/main/java/com/venueninja/model/Venue.java:28 | the id changes; name and list are unchanged |
| Venues.Venue.GetName | src/main/java/com/venueninja/model/Venue.java:30 | returns the stored name and changes nothing |
| Venues.Venue.SetName | src/main/java/com/venueninja/model/Venue.java:31 | the name changes; id and list are unchanged |
| Venues.Venue.GetRecommendations | src/main/java/com/venueninja/model/Venue.java:33 | returns the stored list itself: the same objects in the same order |
| Venues.Venue.SetRecommendations | src/main/java/com/venueninja/model/Venue.java:34-36 | the list changes; id and name are unchanged |
| VenueServices.NewVenue | src/main/java/com/venueninja/service/VenueService.java:18-22 | a fresh venue with fresh recommendations built by the five-argument constructor, whose state is exactly the given row of the seeding table |
| VenueServices.AsMapSize | src/main/java/com/venueninja/service/VenueService.java:18-57 | puts under pairwise distinct keys leave one map entry per put |
| VenueServices.KeysOfDistinct | src/main/java/com/venueninja/service/VenueService.java:18-57 | puts whose listed keys are pairwise distinct put no key twice |
| VenueServices.KeysOfElements | src/main/java/com/venueninja/service/VenueService.java:18-57 | the listed keys are exactly the keys of the puts |
| VenueServices.VenueService.constructor | src/main/java/com/venueninja/service/VenueService.java:13-15 | after construction the store satisfies `Valid()`; its keys are exactly the ten seeded ids; its contents equal the seeding table |
| VenueServices.VenueService.SeedData | src/main/java/com/venueninja/service/VenueService.java:17-61 | seeding the empty map yields exactly the seeding table's contents and keeps `Valid()` |
| VenueServices.VenueService.PutVenues | src/main/java/com/venueninja/service/VenueService.java:17-61 | successive puts of fresh venues under distinct keys that equal the venues' ids leave contents equal to the table of puts, and keep `Valid()` |
| VenueServices.VenueService.PutVenue | src/main/java/com/venueninja/service/VenueService.java:18 | one put adds its key with a fresh venue of the given state; every earlier entry keeps its venue and that venue's state |
| VenueServices.VenueService.GetAllVenues | src/main/java/com/venueninja/service/VenueService.java:63-65 | a new list with one element per entry; it holds exactly the stored venues, each under a distinct key; with `Valid()` it has no duplicates; the store is not modified |
| VenueServices.VenueService.GetVenueById | src/main/java/com/venueninja/service/VenueService.java:67-69 | present if and only if the id is a key, and then it is the venue stored under that key |
| VenueServices.SeedListWellFormed | src/main/java/com/venueninja/service/VenueService.java:18-60 | every seeding row is put under its venue's id and lists recommendations without ids |
| VenueServices.SeedKeys | src/main/java/com/venueninja/service/VenueService.java:18-57 | the put keys, in order, are msg, yankee, barclays, redrocks, radiocity, citi, att, crypto, scg, marvel |
| VenueServices.SeedIdListDistinct | src/main/java/com/venueninja/service/VenueService.java:18-57 | no seeded id is listed twice |
| VenueServices.SeedKeysDistinct | src/main/java/com/venueninja/service/VenueService.java:18-57 | no key is put twice, so no seeded venue overwrites another |
| VenueServices.SeedVenueKeys | src/main/java/com/venueninja/service/VenueService.java:13-60 | the seeded store has exactly ten entries, keyed by the ten seeded ids |
| VenueServices.SeedVenueIds | src/main/java/com/venueninja/service/VenueService.java:18-57 | every seeded key is the id of the venue stored under it |
| VenueServices.SeedRecommendationsUnsaved | src/main/java/com/venueninja/service/VenueService.java:18-60 | every seeded venue has a list, and none of its recommendations has an id |
| VenueServices.SeedMadisonSquareGarden | src/main/java/com/venueninja/service/VenueService.java:18-22 | "msg" is Madison Square Garden with three recommendations in the written order, the first for section "104" |
| VenueControllers.ToResponse | src/main/java/com/venueninja/VenueController.java:38-39 | a present venue is returned as it is; an absent one becomes NOT_FOUND with reason "Venue not found" |
| VenueControllers.VenueController.constructor | src/main/java/com/venueninja/VenueController.java:21-22 | the controller uses the service it was given |
| VenueControllers.VenueController.GetVenues | src/main/java/com/venueninja/VenueController.java:26-29 | returns the service's list unchanged, with every property `GetAllVenues` guarantees |
| VenueControllers.VenueController.GetVenueById | src/main/java/com/venueninja/VenueController.java:36-40 | found if and only if the path id is a key, and then the stored venue, whose id is the queried id; otherwise NOT_FOUND "Venue not found" |
| VenueControllers.SeededLookup | src/main/java/com/venueninja/VenueController.java:36-40 | against the seeded store, an id is found if and only if it is one of the ten seeded ids; every other id gives NOT_FOUND |
| VenueControllers.SeedIdsCaseSensitive | src/main/java/com/venueninja/service/VenueService.java:67-69 | "msg" is a seeded id and "MSG" is not |
| DatabaseConfig.Message | src/main/java/com/venueninja/config/DatabaseConfig.java:39-58 | a missing URL gives "DATABASE_URL environment variable is not set"; an unsupported one gives "Unsupported database URL format: " followed by the URL, which can be read back |
| DatabaseConfig.MessagesDistinguish | src/main/java/com/venueninja/config/DatabaseConfig.java:39-58 | two failures with the same message are the same failure |
| DatabaseConfig.ReplaceAll | src/main/java/com/venueninja/config/DatabaseConfig.java:55 | left-to-right, non-overlapping replace-all, as Java's `String.replace`; the result is no shorter when the replacement is no shorter than the target; a leading occurrence becomes the replacement; that no occurrence remains is proved for the pair the source uses, in `PostgresRewriteLeavesNone` |
| DatabaseConfig.ReplaceAllUnchanged | src/main/java/com/venueninja/config/DatabaseConfig.java:55 | a string without an occurrence of the target is returned unchanged |
| DatabaseConfig.ReplaceAllCopies | src/main/java/com/venueninja/config/DatabaseConfig.java:55 | a character that cannot start the target is copied and the scan moves on |
| DatabaseConfig.ReplaceAllCopiesPrefix | src/main/java/com/venueninja/config/DatabaseConfig.java:55 | a stretch of such characters is copied unchanged, and the rest is replaced on its own |
| DatabaseConfig.TransformDatabaseUrl | src/main/java/com/venueninja/config/DatabaseConfig.java:38-59 | fails with MissingUrl if and only if the URL is null or empty; fails with Unsupported(url), carrying the URL, if and only if it is non-empty and has none of the three prefixes; every success starts with "jdbc:", ends with "?sslmode=require" and is longer than the input |
| DatabaseConfig.PrefixesExclusive | src/main/java/com/venueninja/config/DatabaseConfig.java:44-56 | no URL starts with two of the three prefixes, so at most one branch applies |
| DatabaseConfig.JdbcUrlKept | src/main/java/com/venueninja/config/DatabaseConfig.java:44-46 | a `jdbc:` URL comes back unchanged with the suffix appended |
| DatabaseConfig.PostgresqlUrlPrefixed | src/main/java/com/venueninja/config/DatabaseConfig.java:49-51 | a `postgresql://` URL gets "jdbc:" prepended and the suffix appended |
| DatabaseConfig.PostgresUrlRewritten | src/main/java/com/venueninja/config/DatabaseConfig.java:54-56 | a `postgres://` URL has its scheme rewritten to `jdbc:postgresql://`; its remainder goes through the replace-all and is unchanged if it holds no further `postgres://` |
| DatabaseConfig.PostgresRewriteReplacesEveryOccurrence | src/main/java/com/venueninja/config/DatabaseConfig.java:55 | for every URL `postgres://` + host + `postgres://` whose host has no `p`, both occurrences are rewritten: the result is `jdbc:postgresql://` + host + `jdbc:postgresql://` + the suffix |
| DatabaseConfig.ReplaceAllKeepsPrefix | src/main/java/com/venueninja/config/DatabaseConfig.java:55 | up to the first character that starts the replacement, the result of the replace-all is the input itself |
| DatabaseConfig.NoneAfterReplacement | src/main/java/com/venueninja/config/DatabaseConfig.java:55 | putting `jdbc:postgresql://` in front of text without `postgres://` creates no `postgres://` |
| DatabaseConfig.OccurrenceFromCopy | src/main/java/com/venueninja/config/DatabaseConfig.java:55 | an occurrence of `postgres://` made of copied characters was already in the input at the same place |
| DatabaseConfig.NoneAfterCopy | src/main/java/com/venueninja/config/DatabaseConfig.java:55 | a character copied because no occurrence started there cannot begin an occurrence in the result |
| DatabaseConfig.PostgresRewriteLeavesNone | src/main/java/com/venueninja/config/DatabaseConfig.java:55 | for every input, replacing `postgres://` by `jdbc:postgresql://` leaves no `postgres://` anywhere in the result |
| DatabaseConfig.NoneBeforeSuffix | src/main/java/com/venueninja/config/DatabaseConfig.java:55 | appending "?sslmode=require" to text without `postgres://` creates none |
| DatabaseConfig.PostgresUrlLeavesNone | src/main/java/com/venueninja/config/DatabaseConfig.java:54-56 | every `postgres://` URL is accepted, and the JDBC URL made from it contains no `postgres://` at all |
| DatabaseConfig.TransformNotIdempotent | src/main/java/com/venueninja/config/DatabaseConfig.java:44-46 | transforming a transformed URL appends a second "?sslmode=require", so the result differs from its input |

## Left out

- `DatabaseConfig.dataSource()` is not modelled. It configures a HikariCP connection pool, a library that is not part of this model, and it reads `DATABASE_URL`. In the model the URL is the parameter of `TransformDatabaseUrl`.
- `controller/VenueController.java`, `HealthController` and `WebConfig` are not part of this model:
  - the first calls a repository-backed service that is not shown;
  - the second reports wall-clock values;
  - the third is CORS configuration.
- These framework behaviours are not modelled:
  - JPA/Hibernate (generated ids, lazy loading, cascades);
  - Swagger annotations and JSON serialisation;
  - HTTP routing before the controller runs.
- VenueControllers.VenueController.GetVenueById: the outcome is a `VenueResponse` value. Spring's mapping of the thrown `ResponseStatusException` to an HTTP 404 reply is not modelled.
- The exceptions raised by `transformDatabaseUrl` are modelled as `Failure` results. `Message` gives their texts; the exception classes themselves are not modelled.
- VenueServices.VenueService.GetVenueById: the id is a `string`, so a null id (which Java's `HashMap` accepts and answers with empty) is not modelled.
- VenueServices.VenueService.SeedData: the ten `put` statements of the source are modelled as a loop over the seeding table `SeedList`. The table holds the same keys, venues and recommendations in the same order; each row builds fresh objects with the same constructors.
- VenueServices.VenueService.GetAllVenues: `HashMap`'s iteration order is not modelled. The method may visit the keys in any order, which the ghost `keys` records.
- In the model, lists of venues or recommendations are sequence values, so aliasing of a `java.util.List` object is not modelled. In particular, a caller cannot change the store through the list `GetAllVenues` returns. In Java that holds because the method copies the values into a new `ArrayList`; the model gets it from sequences being values.
- `List.of` makes the seeded lists immutable in Java. The model does not record that, since no modelled operation mutates a list in place.
- DatabaseConfig.ReplaceAll: its contract does not say that no occurrence of the target remains, because for an arbitrary target and replacement that is false (a replacement may contain the target, or complete one with the text after it). The property is proved for the one pair the source uses, `postgres://` to `jdbc:postgresql://`, by `PostgresRewriteLeavesNone` for every input.
- DatabaseConfig.ReplaceAll: requires a non-empty target. Java's `String.replace` with an empty target (which inserts the replacement between all characters) is not modelled, because the only call passes the constant `"postgres://"`.
- The boxed `Long` id is a 64-bit `newtype`. No arithmetic on it is modelled, since the source does none.
- VenueServices.VenueService.PutVenue: in Java, `seedData` is private and `venueMap` is `private final`, so nothing changes the map after construction. The model declares no export sets, so `SeedData`, `PutVenues` and `PutVenue` are callable from outside. `SeedData` and `PutVenues` require an empty map, which a constructed store never has. `PutVenue` only requires a new key, so the model does not capture that the store is fixed after construction.
- Dafny's `string` is a sequence of Unicode scalar values, while Java's `String` is a sequence of UTF-16 code units. Lengths and indices differ only for characters outside the Basic Multilingual Plane; every prefix, target and suffix used here is ASCII.
