/**
 * The generated `<name>/settings.py` (`Generator._settings`): the
 * `INSTALLED_APPS` list, the `MIDDLEWARE` chain, the database block chosen
 * by the database option, and the blocks appended at the end for the custom
 * user model and the REST API.
 */
module Settings {
  import opened Configuration
  import opened Text

  /** The entries `INSTALLED_APPS` can hold. */
  datatype App =
    | AdminApp | AuthApp | ContentTypesApp | SessionsApp | MessagesApp | StaticFilesApp
    | MainApp | RestFrameworkApp | CorsHeadersApp | DjoserApp | SimpleJwtApp | JazzminApp

  /** The entry as written in the list, quotes included. */
  function AppEntry(a: App): string
  {
    match a
    case AdminApp => "'django.contrib.admin'"
    case AuthApp => "'django.contrib.auth'"
    case ContentTypesApp => "'django.contrib.contenttypes'"
    case SessionsApp => "'django.contrib.sessions'"
    case MessagesApp => "'django.contrib.messages'"
    case StaticFilesApp => "'django.contrib.staticfiles'"
    case MainApp => "'main'"
    case RestFrameworkApp => "'rest_framework'"
    case CorsHeadersApp => "'corsheaders'"
    case DjoserApp => "'djoser'"
    case SimpleJwtApp => "'rest_framework_simplejwt'"
    case JazzminApp => "'jazzmin'"
  }

  const BaseApps: seq<App> :=
    [AdminApp, AuthApp, ContentTypesApp, SessionsApp, MessagesApp, StaticFilesApp, MainApp]

  /** The apps the API brings; djoser and the JWT app only with token or JWT authentication. */
  function ApiApps(auth: AuthMethod): seq<App>
  {
    [RestFrameworkApp, CorsHeadersApp]
    + (if auth == Token || auth == Jwt then [DjoserApp] else [])
    + (if auth == Jwt then [SimpleJwtApp] else [])
  }

  function InstalledApps(o: Options): seq<App>
  {
    (if o.admin == Jazzmin then [JazzminApp] else [])
    + BaseApps
    + (if o.api then ApiApps(o.auth) else [])
  }

  lemma BaseAppsMembers()
    ensures forall a :: (a in BaseApps) <==> (a.AdminApp? || a.AuthApp? || a.ContentTypesApp?
      || a.SessionsApp? || a.MessagesApp? || a.StaticFilesApp? || a.MainApp?)
  {
  }

  /** The seven base apps keep their order; `'jazzmin'`, when chosen, comes first. */
  lemma InstalledAppsLayout(o: Options)
    ensures var apps := InstalledApps(o);
      && |apps| == 7 + (if o.admin == Jazzmin then 1 else 0) + (if o.api then |ApiApps(o.auth)| else 0)
      && (o.admin == Jazzmin ==> apps[0] == JazzminApp && apps[1..8] == BaseApps)
      && (o.admin != Jazzmin ==> apps[..7] == BaseApps)
  {
    var front: seq<App> := if o.admin == Jazzmin then [JazzminApp] else [];
    var back := if o.api then ApiApps(o.auth) else [];
    assert InstalledApps(o) == front + BaseApps + back;
    assert (front + BaseApps + back)[|front|..|front| + 7] == BaseApps;
  }

  /** Which optional apps `INSTALLED_APPS` holds: djoser and the JWT app only with the API. */
  lemma InstalledAppsMembers(o: Options)
    ensures var apps := InstalledApps(o);
      && (JazzminApp in apps <==> o.admin == Jazzmin)
      && (RestFrameworkApp in apps <==> o.api)
      && (CorsHeadersApp in apps <==> o.api)
      && (DjoserApp in apps <==> o.api && (o.auth == Token || o.auth == Jwt))
      && (SimpleJwtApp in apps <==> o.api && o.auth == Jwt)
  {
    var front: seq<App> := if o.admin == Jazzmin then [JazzminApp] else [];
    var back := if o.api then ApiApps(o.auth) else [];
    assert InstalledApps(o) == front + BaseApps + back;
    BaseAppsMembers();
  }

  /** `_settings`, first half: `append`/`extend`, then `insert(0, 'jazzmin')`. */
  method BuildInstalledApps(o: Options) returns (apps: seq<App>)
    ensures apps == InstalledApps(o)
  {
    apps := BaseApps;
    if o.api {
      apps := apps + [RestFrameworkApp, CorsHeadersApp];
      if o.auth == Token || o.auth == Jwt {
        apps := apps + [DjoserApp];
        if o.auth == Jwt {
          apps := apps + [SimpleJwtApp];
        }
      }
    }
    if o.admin == Jazzmin {
      apps := [JazzminApp] + apps;
    }
  }

  /** The layers of the `MIDDLEWARE` chain. */
  datatype Layer =
    | SecurityLayer | WhiteNoiseLayer | CorsLayer | SessionLayer | CommonLayer
    | CsrfLayer | AuthenticationLayer | MessageLayer | ClickjackingLayer

  function LayerPath(l: Layer): string
  {
    match l
    case SecurityLayer => "django.middleware.security.SecurityMiddleware"
    case WhiteNoiseLayer => "whitenoise.middleware.WhiteNoiseMiddleware"
    case CorsLayer => "corsheaders.middleware.CorsMiddleware"
    case SessionLayer => "django.contrib.sessions.middleware.SessionMiddleware"
    case CommonLayer => "django.middleware.common.CommonMiddleware"
    case CsrfLayer => "django.middleware.csrf.CsrfViewMiddleware"
    case AuthenticationLayer => "django.contrib.auth.middleware.AuthenticationMiddleware"
    case MessageLayer => "django.contrib.messages.middleware.MessageMiddleware"
    case ClickjackingLayer => "django.middleware.clickjacking.XFrameOptionsMiddleware"
  }

  const BaseMiddleware: seq<Layer> :=
    [SecurityLayer, WhiteNoiseLayer, SessionLayer, CommonLayer,
     CsrfLayer, AuthenticationLayer, MessageLayer, ClickjackingLayer]

  /** The chain: CORS, when the API is on, sits between WhiteNoise and the session layer. */
  function Middleware(o: Options): seq<Layer>
  {
    [SecurityLayer, WhiteNoiseLayer]
    + (if o.api then [CorsLayer] else [])
    + [SessionLayer, CommonLayer, CsrfLayer, AuthenticationLayer, MessageLayer, ClickjackingLayer]
  }

  /** The CORS layer is the only addition, at index 2, and the base order is kept. */
  lemma MiddlewareFollowsFlags(o: Options)
    ensures var mw := Middleware(o);
      && (CorsLayer in mw <==> o.api)
      && (!o.api ==> mw == BaseMiddleware)
      && (o.api ==> |mw| == 9 && mw[2] == CorsLayer && mw[..2] + mw[3..] == BaseMiddleware)
      && mw[1] == WhiteNoiseLayer
  {
  }

  /** `_settings`: the fixed list, then `insert(2, CorsMiddleware)` when the API is on. */
  method BuildMiddleware(o: Options) returns (mw: seq<Layer>)
    ensures mw == Middleware(o)
  {
    mw := BaseMiddleware;
    if o.api {
      mw := mw[..2] + [CorsLayer] + mw[2..];
    }
  }

  function Engine(db: Database): string
  {
    match db
    case Sqlite => "django.db.backends.sqlite3"
    case Postgresql => "django.db.backends.postgresql"
    case Mysql => "django.db.backends.mysql"
  }

  /** The connection settings of a database server. */
  datatype Connection = Connection(database: string, user: string, password: string, port: string)

  function ServerConnection(db: Database): Connection
    requires db != Sqlite
  {
    if db == Postgresql then Connection("postgres", "postgres", "postgres", "5432")
    else Connection("mysql", "root", "root", "3306")
  }

  /** One `'KEY': 'value'` entry of the database dictionary. */
  function DbEntry(key: string, value: string): string
  {
    "'" + key + "': '" + value + "'"
  }

  function ServerEntries(db: Database): seq<string>
    requires db != Sqlite
  {
    var c := ServerConnection(db);
    [DbEntry("ENGINE", Engine(db)), DbEntry("NAME", c.database), DbEntry("USER", c.user),
     DbEntry("PASSWORD", c.password), DbEntry("HOST", "localhost"), DbEntry("PORT", c.port)]
  }

  /** The `'default'` entry of `DATABASES`, one dictionary per database option. */
  function DatabaseBlock(db: Database): string
  {
    if db == Sqlite then
      "{" + DbEntry("ENGINE", Engine(db)) + ", 'NAME': BASE_DIR / 'db.sqlite3'}"
    else
      "{" + Join(ServerEntries(db), ", ") + "}"
  }

  /** The engines of the three options are distinct. */
  lemma EngineInjective(a: Database, b: Database)
    ensures Engine(a) == Engine(b) ==> a == b
  {
    assert |Engine(Sqlite)| == 26 && |Engine(Postgresql)| == 29 && |Engine(Mysql)| == 24;
  }

  /** The block opens with the engine entry of the chosen database. */
  lemma DatabaseBlockOpensWithEngine(db: Database)
    ensures var block := DatabaseBlock(db);
      var engine := "{" + DbEntry("ENGINE", Engine(db));
      && |engine| <= |block| && block[..|engine|] == engine
      && Contains(block, Engine(db))
  {
    var block := DatabaseBlock(db);
    var entry := DbEntry("ENGINE", Engine(db));
    if db == Sqlite {
      PrefixOfConcat("{" + entry, ", 'NAME': BASE_DIR / 'db.sqlite3'}");
    } else {
      var entries := ServerEntries(db);
      JoinStartsWith(entries, ", ");
      PrefixOfConcat("{" + Join(entries, ", "), "}");
      PrefixOfConcat("{", Join(entries, ", "));
      assert block[..|"{" + entry|] == ("{" + Join(entries, ", "))[..|"{" + entry|];
    }
    assert OccursAt(block, "{" + entry, 0);
    ContainsHalves(block, "{", entry);
    ContainsHalves(block, "'" + "ENGINE" + "': '" + Engine(db), "'");
    ContainsHalves(block, "'" + "ENGINE" + "': '", Engine(db));
  }

  /** For a database server the block carries that server's name, user, password, host and port. */
  lemma ServerBlockEntries(db: Database)
    requires db != Sqlite
    ensures var block := DatabaseBlock(db);
      var c := ServerConnection(db);
      && Contains(block, DbEntry("NAME", c.database))
      && Contains(block, DbEntry("USER", c.user))
      && Contains(block, DbEntry("PASSWORD", c.password))
      && Contains(block, DbEntry("HOST", "localhost"))
      && Contains(block, DbEntry("PORT", c.port))
  {
    var block := DatabaseBlock(db);
    var entries := ServerEntries(db);
    ContainsInfix("{", Join(entries, ", "), "}");
    JoinContains(entries, ", ", 1);
    ContainsTransitive(block, Join(entries, ", "), entries[1]);
    JoinContains(entries, ", ", 2);
    ContainsTransitive(block, Join(entries, ", "), entries[2]);
    JoinContains(entries, ", ", 3);
    ContainsTransitive(block, Join(entries, ", "), entries[3]);
    JoinContains(entries, ", ", 4);
    ContainsTransitive(block, Join(entries, ", "), entries[4]);
    JoinContains(entries, ", ", 5);
    ContainsTransitive(block, Join(entries, ", "), entries[5]);
  }

  /** The line `_settings` appends for the custom user model (key, then value). */
  const AuthUserModelLine := "\nAUTH_USER_MODEL" + " = 'main.CustomUser'"

  function AuthenticationClass(auth: AuthMethod): string
  {
    match auth
    case Session => "'rest_framework.authentication.SessionAuthentication',"
    case Token => "'rest_framework.authentication.TokenAuthentication',"
    case Jwt => "'rest_framework_simplejwt.authentication.JWTAuthentication',"
  }

  const RestFrameworkHead := "\nREST_FRAMEWORK" + @" = {
    'DEFAULT_AUTHENTICATION_CLASSES': ["
  const RestFrameworkRest := @"
    ],
    'DEFAULT_PERMISSION_CLASSES': [
        'rest_framework.permissions.IsAuthenticated',
    ],
}
CORS_ALLOWED_ORIGINS = [
    ""http://localhost:3000"",
    ""http://127.0.0.1:3000"",
]"

  /** The `REST_FRAMEWORK` and `CORS_ALLOWED_ORIGINS` block for an authentication method. */
  function RestFrameworkBlock(auth: AuthMethod): string
  {
    RestFrameworkHead + AuthenticationClass(auth) + RestFrameworkRest
  }

  /** What `_settings` appends after the fixed text. */
  function SettingsTail(o: Options): string
  {
    (if o.user then AuthUserModelLine else "")
    + (if o.api then RestFrameworkBlock(o.auth) else "")
  }

  lemma AuthenticationClassLength(auth: AuthMethod)
    ensures |AuthenticationClass(auth)| == match auth
      case Session => 54
      case Token => 52
      case Jwt => 60
  {
  }

  /** Each authentication method has its own class. */
  lemma AuthenticationClassInjective(a: AuthMethod, b: AuthMethod)
    ensures AuthenticationClass(a) == AuthenticationClass(b) ==> a == b
  {
    AuthenticationClassLength(a);
    AuthenticationClassLength(b);
  }

  lemma SuffixContained(part: string, s: string)
    requires IsSuffix(part, s)
    ensures Contains(s, part)
  {
    assert OccursAt(s, part, |s| - |part|);
  }

  /** A block opening with the REST head cannot be mistaken for the custom user line. */
  lemma RestHeadNotUserLine(x: string, y: string)
    ensures var b := RestFrameworkHead + x + y;
      !(|AuthUserModelLine| <= |b| && b[..|AuthUserModelLine|] == AuthUserModelLine)
  {
    var b := RestFrameworkHead + x + y;
    assert b[1] == 'R';
    if |AuthUserModelLine| <= |b| {
      assert b[..|AuthUserModelLine|][1] == b[1];
    }
  }

  /** The tail is empty exactly when neither block is appended, and starts with the custom user line exactly when that model is on. */
  lemma SettingsTailHead(o: Options)
    ensures var tail := SettingsTail(o);
      && (tail == "" <==> !o.user && !o.api)
      && (|AuthUserModelLine| <= |tail| && tail[..|AuthUserModelLine|] == AuthUserModelLine <==> o.user)
  {
    var rest := if o.api then RestFrameworkBlock(o.auth) else "";
    var tail := SettingsTail(o);
    if o.user {
      assert tail == AuthUserModelLine + rest;
    } else if o.api {
      RestHeadNotUserLine(AuthenticationClass(o.auth), RestFrameworkRest);
      assert tail == RestFrameworkBlock(o.auth);
    }
  }

  /** The tail ends with the REST block exactly when the API is on, and that block names the chosen class. */
  lemma SettingsTailRest(o: Options)
    ensures var tail := SettingsTail(o);
      && (o.api ==> IsSuffix(RestFrameworkBlock(o.auth), tail))
      && (!o.api ==> forall a: AuthMethod :: !IsSuffix(RestFrameworkBlock(a), tail))
      && (o.api ==> Contains(tail, AuthenticationClass(o.auth)))
  {
    var head := if o.user then AuthUserModelLine else "";
    var rest := if o.api then RestFrameworkBlock(o.auth) else "";
    var tail := SettingsTail(o);
    assert tail == head + rest;
    if o.api {
      ContainsInfix(RestFrameworkHead, AuthenticationClass(o.auth), RestFrameworkRest);
      ContainsInSuffix(head, rest, AuthenticationClass(o.auth));
      assert tail[|tail| - |rest|..] == rest;
    } else {
      forall a: AuthMethod ensures !IsSuffix(RestFrameworkBlock(a), tail) {
        assert |RestFrameworkBlock(a)| >= |RestFrameworkHead|;
      }
    }
  }

  /**
   * The tail starts with the custom user line exactly when the custom user
   * model is on, ends with the REST block exactly when the API is on, and
   * that block names the class of the chosen authentication method.
   */
  lemma SettingsTailFollowsFlags(o: Options)
    ensures var tail := SettingsTail(o);
      && (tail == "" <==> !o.user && !o.api)
      && (|AuthUserModelLine| <= |tail| && tail[..|AuthUserModelLine|] == AuthUserModelLine <==> o.user)
      && (o.api ==> IsSuffix(RestFrameworkBlock(o.auth), tail))
      && (!o.api ==> forall a: AuthMethod :: !IsSuffix(RestFrameworkBlock(a), tail))
      && (o.api ==> Contains(tail, AuthenticationClass(o.auth)))
  {
    SettingsTailHead(o);
    SettingsTailRest(o);
  }

  /** How `INSTALLED_APPS` entries are written: comma-separated on one line. */
  function AppEntries(apps: seq<App>): seq<string>
  {
    seq(|apps|, i requires 0 <= i < |apps| => AppEntry(apps[i]))
  }

  function LayerPaths(mw: seq<Layer>): seq<string>
  {
    seq(|mw|, i requires 0 <= i < |mw| => LayerPath(mw[i]))
  }

  function RootUrlconf(name: string): string
  {
    "ROOT_URLCONF = '" + name + ".urls'"
  }

  function WsgiApplication(name: string): string
  {
    "WSGI_APPLICATION = '" + name + ".wsgi.application'"
  }

  const SettingsHead := @"from pathlib import Path
BASE_DIR = Path(__file__).resolve().parent.parent
SECRET_KEY = 'django-insecure-change-this-in-production'
DEBUG = True
ALLOWED_HOSTS = []
INSTALLED_APPS = [
    "

  const TemplatesSetting := @"
TEMPLATES = [
    {
        'BACKEND': 'django.template.backends.django.DjangoTemplates',
        'DIRS': [BASE_DIR / 'templates'],
        'APP_DIRS': True,
        'OPTIONS': {
            'context_processors': [
                'django.template.context_processors.debug',
                'django.template.context_processors.request',
                'django.contrib.auth.context_processors.auth',
                'django.contrib.messages.context_processors.messages',
            ],
        },
    },
]
"

  const SettingsRest := @"
}
AUTH_PASSWORD_VALIDATORS = [
    {'NAME': 'django.contrib.auth.password_validation.UserAttributeSimilarityValidator'},
    {'NAME': 'django.contrib.auth.password_validation.MinimumLengthValidator'},
    {'NAME': 'django.contrib.auth.password_validation.CommonPasswordValidator'},
    {'NAME': 'django.contrib.auth.password_validation.NumericPasswordValidator'},
]
LANGUAGE_CODE = 'zh-hans'
TIME_ZONE = 'Asia/Shanghai'
USE_I18N = True
USE_TZ = True
STATIC_URL = '/static/'
STATICFILES_DIRS = [BASE_DIR / 'static']
DEFAULT_AUTO_FIELD = 'django.db.models.BigAutoField'
LOGIN_URL = '/login/'
LOGIN_REDIRECT_URL = '/'
LOGOUT_REDIRECT_URL = '/'"

  /** The pieces of `settings.py`, in order, from the lists and blocks built before. */
  function SettingsParts(name: string, apps: seq<App>, mw: seq<Layer>, db: Database, tail: string): seq<string>
  {
    [SettingsHead, Join(AppEntries(apps), ", "), "\n]\nMIDDLEWARE = ", PyList(LayerPaths(mw)), "\n",
     RootUrlconf(name), TemplatesSetting, WsgiApplication(name),
     "\nDATABASES = {\n    'default': ", DatabaseBlock(db), SettingsRest, tail]
  }

  /** The text `_settings` writes, from its already built lists. */
  function RenderSettings(name: string, apps: seq<App>, mw: seq<Layer>, db: Database, tail: string): string
  {
    Concat(SettingsParts(name, apps, mw, db, tail))
  }

  /** Each interpolated piece lands in the text, and the appended blocks end it. */
  lemma RenderSettingsPlaces(name: string, apps: seq<App>, mw: seq<Layer>, db: Database, tail: string)
    ensures var text := RenderSettings(name, apps, mw, db, tail);
      && Contains(text, RootUrlconf(name)) && Contains(text, WsgiApplication(name))
      && Contains(text, Join(AppEntries(apps), ", ")) && Contains(text, PyList(LayerPaths(mw)))
      && Contains(text, DatabaseBlock(db))
      && IsSuffix(tail, text)
  {
    var parts := SettingsParts(name, apps, mw, db, tail);
    ConcatContains(parts, 1);
    ConcatContains(parts, 3);
    ConcatContains(parts, 5);
    ConcatContains(parts, 7);
    ConcatContains(parts, 9);
    ConcatEndsWith(parts);
  }

  /** `<name>/settings.py` for a configuration. */
  function SettingsText(o: Options): string
  {
    RenderSettings(o.name, InstalledApps(o), Middleware(o), o.db, SettingsTail(o))
  }

  /**
   * The settings point at the project's own URL and WSGI modules, list the
   * installed apps and middleware of the configuration, use its database
   * block, and carry the custom user line and the REST block exactly as the
   * flags ask.
   */
  lemma SettingsTextFollowsOptions(o: Options)
    ensures var text := SettingsText(o);
      && Contains(text, RootUrlconf(o.name)) && Contains(text, WsgiApplication(o.name))
      && Contains(text, Join(AppEntries(InstalledApps(o)), ", "))
      && Contains(text, PyList(LayerPaths(Middleware(o))))
      && Contains(text, Engine(o.db))
      && (o.user ==> Contains(text, AuthUserModelLine))
      && (o.api ==> Contains(text, AuthenticationClass(o.auth)) && IsSuffix(RestFrameworkBlock(o.auth), text))
  {
    var text := SettingsText(o);
    var tail := SettingsTail(o);
    RenderSettingsPlaces(o.name, InstalledApps(o), Middleware(o), o.db, tail);
    DatabaseBlockOpensWithEngine(o.db);
    ContainsTransitive(text, DatabaseBlock(o.db), Engine(o.db));
    SettingsTailFollowsFlags(o);
    SuffixContained(tail, text);
    if o.user {
      assert OccursAt(tail, AuthUserModelLine, 0);
      ContainsTransitive(text, tail, AuthUserModelLine);
    }
    if o.api {
      ContainsTransitive(text, tail, AuthenticationClass(o.auth));
      var block := RestFrameworkBlock(o.auth);
      assert text[|text| - |tail|..][|tail| - |block|..] == text[|text| - |block|..];
    }
  }

  /**
   * The project name goes into the settings as it is, so whatever the name
   * holds the settings hold too. A name that itself holds the
   * `AUTH_USER_MODEL` line puts that line into the settings without the
   * custom user; the flag decides the line within the tail only.
   */
  lemma NameCarriesIntoSettings(o: Options, part: string)
    requires Contains(o.name, part)
    ensures Contains(SettingsText(o), part)
  {
    RenderSettingsPlaces(o.name, InstalledApps(o), Middleware(o), o.db, SettingsTail(o));
    ContainsInfix("ROOT_URLCONF = '", o.name, ".urls'");
    ContainsTransitive(RootUrlconf(o.name), o.name, part);
    ContainsTransitive(SettingsText(o), RootUrlconf(o.name), part);
  }
}
