/**
 * The generator's configuration (`Config` in django_user_starter/main.py)
 * and the two derivation rules its `__post_init__` applies once, at
 * construction: an API with session authentication is upgraded to token
 * authentication, and an API or the Jazzmin admin forces the custom user
 * model and the Docker files on.
 */
module Configuration {

  datatype Database = Sqlite | Postgresql | Mysql
  datatype AuthMethod = Session | Token | Jwt
  datatype AdminStyle = DefaultAdmin | Jazzmin
  datatype Language = Zh | En

  /** A project name that names one directory below the working directory. */
  predicate IsProjectName(s: string)
  {
    |s| > 0 && '/' !in s && '\0' !in s && s != "." && s != ".."
  }

  type ProjectName = s: string | IsProjectName(s) witness "project"

  /** The values a `Config` holds, before or after the derivation rules. */
  datatype Options = Options(
    name: ProjectName,
    db: Database,
    api: bool,
    auth: AuthMethod,
    admin: AdminStyle,
    user: bool,
    docker: bool,
    lang: Language)

  /** Both derivation rules hold: nothing is left for them to change. */
  predicate Normalized(o: Options)
  {
    && (o.api ==> o.auth != Session)
    && (o.api || o.admin == Jazzmin ==> o.user && o.docker)
  }

  /**
   * `r` differs from `o` only by changes the derivation rules are allowed to
   * make: session authentication may become token authentication, and the
   * custom user and Docker flags may be switched on, never off.
   */
  predicate Upgrades(o: Options, r: Options)
  {
    && r.name == o.name && r.db == o.db && r.api == o.api
    && r.admin == o.admin && r.lang == o.lang
    && (r.auth == o.auth || (o.auth == Session && r.auth == Token))
    && (o.user ==> r.user)
    && (o.docker ==> r.docker)
  }

  /**
   * The configuration `__post_init__` leaves behind: the least upgrade of
   * `o` that satisfies both rules.
   */
  function Normalize(o: Options): (r: Options)
    ensures Upgrades(o, r) && Normalized(r)
    ensures forall r' :: Upgrades(o, r') && Normalized(r') ==> Upgrades(r, r')
  {
    var auth := if o.api && o.auth == Session then Token else o.auth;
    var forced := o.api || o.admin == Jazzmin;
    o.(auth := auth, user := o.user || forced, docker := o.docker || forced)
  }

  /** Applying the rules to a configuration they already hold for changes nothing. */
  lemma NormalizeFixesNormalized(o: Options)
    ensures Normalized(o) <==> Normalize(o) == o
  {
  }

  lemma NormalizeIdempotent(o: Options)
    ensures Normalize(Normalize(o)) == Normalize(o)
  {
    NormalizeFixesNormalized(Normalize(o));
  }

  /** The rules as the source states them, one field at a time. */
  lemma DerivationRules(o: Options)
    ensures Normalize(o).auth == Token <==> o.auth == Token || (o.api && o.auth == Session)
    ensures Normalize(o).auth == Jwt <==> o.auth == Jwt
    ensures o.api || o.admin == Jazzmin ==> Normalize(o).user && Normalize(o).docker
    ensures !(o.api || o.admin == Jazzmin) ==> Normalize(o).user == o.user && Normalize(o).docker == o.docker
    ensures Normalize(o).name == o.name && Normalize(o).db == o.db && Normalize(o).api == o.api
    ensures Normalize(o).admin == o.admin && Normalize(o).lang == o.lang
  {
  }

  class Config {
    var name: ProjectName
    var db: Database
    var api: bool
    var auth: AuthMethod
    var admin: AdminStyle
    var user: bool
    var docker: bool
    var lang: Language

    function Value(): Options
      reads this
    {
      Options(name, db, api, auth, admin, user, docker, lang)
    }

    /** The dataclass constructor with its defaults, followed by `__post_init__`. */
    constructor (name: ProjectName, db: Database := Sqlite, api: bool := false,
                 auth: AuthMethod := Session, admin: AdminStyle := DefaultAdmin,
                 user: bool := false, docker: bool := false, lang: Language := Zh)
      ensures Value() == Normalize(Options(name, db, api, auth, admin, user, docker, lang))
    {
      this.name := name;
      this.db := db;
      this.api := api;
      this.auth := auth;
      this.admin := admin;
      this.user := user;
      this.docker := docker;
      this.lang := lang;
      new;
      if this.api && this.auth == Session {
        this.auth := Token;
      }
      if this.api || this.admin == Jazzmin {
        this.user := true;
        this.docker := true;
      }
    }
  }
}
