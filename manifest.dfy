/**
 * The dependency manifest `requirements.txt` (`Generator._requirements`):
 * two fixed pins, then one pin per selected feature, in a fixed order,
 * written one per line.
 */
module Manifest {
  import opened Configuration
  import opened Text
  import opened Order

  /** The packages the manifest can name. */
  datatype Package =
    | Django | Whitenoise | Psycopg | Mysqlclient | RestFramework
    | CorsHeaders | SimpleJwt | Djoser | DjangoJazzmin

  /** The line written for a package: its name and version bound. */
  function Pin(p: Package): string
  {
    match p
    case Django => "Django>=4.2,<5.0"
    case Whitenoise => "whitenoise>=6.0"
    case Psycopg => "psycopg2-binary>=2.9"
    case Mysqlclient => "mysqlclient>=2.1"
    case RestFramework => "djangorestframework>=3.14"
    case CorsHeaders => "django-cors-headers>=3.14"
    case SimpleJwt => "djangorestframework-simplejwt>=5.2"
    case Djoser => "djoser>=2.2"
    case DjangoJazzmin => "django-jazzmin>=2.6"
  }

  /** The driver package for a database server; SQLite needs none. */
  function Drivers(db: Database): seq<Package>
  {
    match db
    case Sqlite => []
    case Postgresql => [Psycopg]
    case Mysql => [Mysqlclient]
  }

  /**
   * The manifest entries. The token and JWT packages follow the
   * authentication method alone, with or without the API.
   */
  function Requirements(o: Options): (deps: seq<Package>)
  {
    [Django, Whitenoise]
    + Drivers(o.db)
    + (if o.api then [RestFramework, CorsHeaders] else [])
    + (if o.auth == Jwt then [SimpleJwt] else [])
    + (if o.auth == Token || o.auth == Jwt then [Djoser] else [])
    + (if o.admin == Jazzmin then [DjangoJazzmin] else [])
  }

  /** Which packages the manifest names, and where. */
  lemma RequirementsFollowFlags(o: Options)
    ensures var deps := Requirements(o);
      && |deps| >= 2 && deps[0] == Django && deps[1] == Whitenoise
      && (Psycopg in deps <==> o.db == Postgresql)
      && (Mysqlclient in deps <==> o.db == Mysql)
      && !(Psycopg in deps && Mysqlclient in deps)
      && (RestFramework in deps <==> o.api)
      && (CorsHeaders in deps <==> o.api)
      && (Djoser in deps <==> o.auth == Token || o.auth == Jwt)
      && (SimpleJwt in deps <==> o.auth == Jwt)
      && (DjangoJazzmin in deps <==> o.admin == Jazzmin)
  {
  }

  /** The JWT package, when present, precedes djoser, and no package is named twice. */
  lemma RequirementsJwtBeforeDjoser(o: Options)
    ensures var deps := Requirements(o);
      && (forall i, j :: 0 <= i < |deps| && 0 <= j < |deps| && deps[i] == SimpleJwt && deps[j] == Djoser ==> i < j)
      && (forall i, j :: 0 <= i < j < |deps| ==> deps[i] != deps[j])
  {
    RequirementsOrdered(o);
    AscendingOrders(Requirements(o), Rank);
  }

  /** A package's place in the order in which `_requirements` can add it. */
  function Rank(p: Package): int
  {
    match p
    case Django => 0
    case Whitenoise => 1
    case Psycopg => 2
    case Mysqlclient => 3
    case RestFramework => 4
    case CorsHeaders => 5
    case SimpleJwt => 6
    case Djoser => 7
    case DjangoJazzmin => 8
  }

  /** The pins `_requirements` always adds, then those for the database and the API. */
  lemma LeadingPackagesRanked(o: Options)
    ensures var s := [Django, Whitenoise] + Drivers(o.db) + (if o.api then [RestFramework, CorsHeaders] else []);
      Ascending(s, Rank) && RanksFrom(s, Rank, 0) && RanksBelow(s, Rank, 6)
  {
    var s0: seq<Package> := [Django, Whitenoise];
    AscendingAppend(s0, Drivers(o.db), Rank, 0, 2, 4);
    var api: seq<Package> := if o.api then [RestFramework, CorsHeaders] else [];
    AscendingAppend(s0 + Drivers(o.db), api, Rank, 0, 4, 6);
  }

  /** The pins for the authentication method and the admin style. */
  lemma TrailingPackagesRanked(o: Options)
    ensures var t := (if o.auth == Jwt then [SimpleJwt] else [])
        + (if o.auth == Token || o.auth == Jwt then [Djoser] else [])
        + (if o.admin == Jazzmin then [DjangoJazzmin] else []);
      Ascending(t, Rank) && RanksFrom(t, Rank, 6) && RanksBelow(t, Rank, 9)
  {
  }

  /**
   * The manifest lists its packages in one fixed order (so the JWT package
   * always comes before djoser) and never names one twice.
   */
  lemma RequirementsOrdered(o: Options)
    ensures Ascending(Requirements(o), Rank)
  {
    var s := [Django, Whitenoise] + Drivers(o.db) + (if o.api then [RestFramework, CorsHeaders] else []);
    var t := (if o.auth == Jwt then [SimpleJwt] else [])
      + (if o.auth == Token || o.auth == Jwt then [Djoser] else [])
      + (if o.admin == Jazzmin then [DjangoJazzmin] else []);
    LeadingPackagesRanked(o);
    TrailingPackagesRanked(o);
    AscendingAppend(s, t, Rank, 0, 6, 9);
    assert Requirements(o) == s + t;
  }

  function Pins(deps: seq<Package>): (lines: seq<string>)
  {
    seq(|deps|, i requires 0 <= i < |deps| => Pin(deps[i]))
  }

  /** The text of `requirements.txt`: the pins joined by newlines, plus a final newline. */
  function RequirementsText(o: Options): string
  {
    Join(Pins(Requirements(o)), "\n") + "\n"
  }

  lemma CorePinsHaveNoNewline(p: Package)
    requires Rank(p) < 5
    ensures '\n' !in Pin(p)
  {
  }

  lemma FeaturePinsHaveNoNewline(p: Package)
    requires Rank(p) >= 5
    ensures '\n' !in Pin(p)
  {
  }

  /** Every pin fits on one line. */
  lemma PinHasNoNewline(p: Package)
    ensures '\n' !in Pin(p)
  {
    if Rank(p) < 5 {
      CorePinsHaveNoNewline(p);
    } else {
      FeaturePinsHaveNoNewline(p);
    }
  }

  /** Reading `requirements.txt` line by line gives back exactly the pins, in order. */
  lemma RequirementsTextLines(o: Options)
    ensures Lines(RequirementsText(o)) == Pins(Requirements(o))
  {
    var lines := Pins(Requirements(o));
    forall i | 0 <= i < |lines| ensures '\n' !in lines[i] {
      PinHasNoNewline(Requirements(o)[i]);
    }
    LinesOfJoin(lines);
  }

  /** `_requirements`: the list is built with `append` and `extend`, as the source does. */
  method BuildRequirements(o: Options) returns (deps: seq<Package>)
    ensures deps == Requirements(o)
  {
    deps := [Django, Whitenoise];
    if o.db == Postgresql {
      deps := deps + [Psycopg];
    } else if o.db == Mysql {
      deps := deps + [Mysqlclient];
    }
    if o.api {
      deps := deps + [RestFramework, CorsHeaders];
    }
    if o.auth == Token || o.auth == Jwt {
      if o.auth == Jwt {
        deps := deps + [SimpleJwt];
      }
      deps := deps + [Djoser];
    }
    if o.admin == Jazzmin {
      deps := deps + [DjangoJazzmin];
    }
  }
}
