# django-user-starter, modelled in Dafny

django-user-starter generates a Django project with user authentication
from a handful of options: the project name, the database (SQLite,
PostgreSQL, MySQL), whether to add a REST API, the authentication method
(session, token, JWT), the admin style (default or Jazzmin), a custom user
model, Docker files and the interface language.

This model covers `django_user_starter/main.py`:

- `Config.__post_init__`, which upgrades the options by two derivation rules.
- The artifact plan of `Generator.run`. The project directory is cleared.
  `_create_dirs` creates the directory skeleton. `_write_files` then writes
  every planned file, and which files these are follows the options.
- The list builders: the `requirements.txt` pins, the settings'
  `INSTALLED_APPS` and `MIDDLEWARE`, and the feature tags of the completion
  message.
- The texts chosen or assembled from the options:
  - the database block and trailing blocks of `settings.py`;
  - the custom user model, its admin, migration and serializer;
  - the Docker Compose database service;
  - the files that interpolate the project name.

Modules, one per file:

- `Text` (`text.dfy`): `str.join`, list `repr`, `str.upper`, and reading a
  text back as lines.
- `Configuration` (`config.dfy`): the options and the `Config` class.
- `Order` (`order.dfy`): strictly ascending ranks, used for "always in this
  order" properties.
- `Manifest` (`manifest.dfy`): `_requirements`.
- `Settings` (`settings.dfy`): `_settings`.
- `Templates` (`templates.dfy`): the remaining Python modules, the README
  and the page templates.
- `Docker` (`docker.dfy`): `_dockerfile`, `_docker_compose`,
  `_dockerignore`.
- `FileTree` (`filetree.dfy`): the project directory and its filesystem
  calls.
- `Plan` (`plan.dfy`): what `run` creates and writes, and what the
  directory holds afterwards.
- `Generate` (`generator.dfy`): the `Generator` class and the feature
  summary.

The project directory is a map from relative paths to entries, each a
directory or a file with its text. Each filesystem call is a step that
either succeeds with a new map or fails as the operating system would.
Paths are compared character for character, as on a case-sensitive
filesystem such as Linux's:

- writing where a directory stands fails;
- writing into a missing directory fails;
- making a directory where a file stands fails.

A run stops at its first failed step. Two behaviours of the code follow from
this and are modelled as they are:

- A project named like one of its own top-level files (`manage.py`,
  `requirements.txt`, `README.md`, and with Docker `Dockerfile`,
  `docker-compose.yml`, `.dockerignore`) fails. `_create_dirs` first makes a
  directory of that name, and writing the file onto it fails (`Collides`).
- A project named `main` has its package `urls.py` at `main/urls.py`, the
  application's own `urls.py`. The application's file is written later and
  wins (`MainUrlsCollide`, `FileContent`).

## Model

| member | source | states |
|---|---|---|
| Configuration.Normalize | django_user_starter/main.py:58-64 | The result satisfies both derivation rules. It only upgrades the input: session auth may become token, and the user and docker flags may turn on. It is below every other upgrade that satisfies both rules. |
| Configuration.NormalizeFixesNormalized | django_user_starter/main.py:58-64 | A configuration is left unchanged by the rules exactly when both rules already hold for it. |
| Configuration.NormalizeIdempotent | django_user_starter/main.py:58-64 | Applying the rules a second time changes nothing. |
| Configuration.DerivationRules | django_user_starter/main.py:58-64 | Auth becomes token exactly when the API is on with session auth; otherwise auth is kept, so JWT stays JWT. The user and Docker flags are forced on by the API or Jazzmin and are otherwise kept. Name, database, admin and language never change. |
| Configuration.Config.constructor | django_user_starter/main.py:46-64 | The dataclass with its defaults, followed by `__post_init__`, leaves exactly the normalised options in the fields. |
| Manifest.RequirementsFollowFlags | django_user_starter/main.py:158-172 | The manifest starts with Django and whitenoise. It holds psycopg2 iff PostgreSQL and mysqlclient iff MySQL, never both. It holds DRF and cors-headers iff the API is on, djoser iff token or JWT auth (even without the API), simplejwt iff JWT, and jazzmin iff the Jazzmin admin. |
| Manifest.RequirementsOrdered | django_user_starter/main.py:158-172 | The pins appear in strictly ascending order of one fixed rank. |
| Manifest.RequirementsJwtBeforeDjoser | django_user_starter/main.py:166-169 | simplejwt always comes before djoser, and no package is listed twice. |
| Manifest.PinHasNoNewline | django_user_starter/main.py:159-170 | No pin contains a newline. |
| Manifest.RequirementsTextLines | django_user_starter/main.py:171-172 | Splitting `requirements.txt` into lines gives back exactly the pins, in order. The text is the pins joined by newlines plus a final newline. |
| Manifest.BuildRequirements | django_user_starter/main.py:158-170 | Building the list with `append` and `extend` gives exactly the specified manifest. |
| Settings.InstalledAppsLayout | django_user_starter/main.py:205-221 | The list holds 7 base apps, plus 1 for Jazzmin, plus the API apps. With Jazzmin, `jazzmin` is at index 0 and the base apps follow in order. Otherwise the base apps come first. |
| Settings.InstalledAppsMembers | django_user_starter/main.py:214-221 | Jazzmin is listed iff that admin is chosen, and DRF and corsheaders iff the API is on. djoser is listed iff the API is on with token or JWT auth, and simplejwt iff the API is on with JWT. |
| Settings.BuildInstalledApps | django_user_starter/main.py:205-221 | Building the list with `extend`, `append` and `insert(0, …)` gives exactly the specified apps. |
| Settings.MiddlewareFollowsFlags | django_user_starter/main.py:227-238 | CORS middleware is present iff the API is on. Without it the chain is the eight base entries. With it, the CORS entry sits at index 2 and removing it leaves the base chain unchanged. WhiteNoise is always second. |
| Settings.BuildMiddleware | django_user_starter/main.py:227-238 | Building the chain with `insert(2, …)` gives exactly the specified middleware. |
| Settings.EngineInjective | django_user_starter/main.py:222-226 | Different databases have different engines. |
| Settings.DatabaseBlockOpensWithEngine | django_user_starter/main.py:222-226 | Each database block opens with the engine of the chosen database. |
| Settings.ServerBlockEntries | django_user_starter/main.py:224-225 | The PostgreSQL and MySQL blocks name the database, user, password, host `localhost` and port of that server. |
| Settings.AuthenticationClassInjective | django_user_starter/main.py:288-295 | Each authentication method has its own REST authentication class. |
| Settings.SettingsTailFollowsFlags | django_user_starter/main.py:284-308 | The tail is empty iff neither the custom user nor the API is on. It starts with `AUTH_USER_MODEL` iff the custom user is on. It ends with the REST block iff the API is on, and that block names the chosen auth's class. |
| Settings.RenderSettingsPlaces | django_user_starter/main.py:239-283 | The rendered settings contain the root URLconf and WSGI application of the project name, the apps, the middleware list and the database block, and they end with the tail. |
| Settings.SettingsTextFollowsOptions | django_user_starter/main.py:204-309 | `settings.py` contains the project's module paths, the installed apps, the middleware and the chosen engine. With the custom user it contains `AUTH_USER_MODEL`. With the API it contains the chosen auth class and ends with the REST block. The converse of the user clause holds for the tail only (`SettingsTailFollowsFlags`), because the name is free text (`NameCarriesIntoSettings`). |
| Settings.NameCarriesIntoSettings | django_user_starter/main.py:248 | Whatever the project name contains, `settings.py` contains too, since the name is written into it unescaped. A name holding the `AUTH_USER_MODEL` line puts that line into the settings even without the custom user. |
| Templates.EntryPointsNameSettings | django_user_starter/main.py:136-156 | `manage.py` and `wsgi.py` both set `DJANGO_SETTINGS_MODULE` to the project's settings. |
| Templates.EntryPointsDetermineName | django_user_starter/main.py:136-202 | Different project names give different `manage.py`, `wsgi.py` and `README.md` texts. |
| Templates.ReadmeIgnoresLanguage | django_user_starter/main.py:175-202 | The README does not depend on the language option, and it opens with `# <name>`. |
| Templates.ModelsDeclareFields | django_user_starter/main.py:328-341 | The custom user model declares each extra field. |
| Templates.AdminShowsFields | django_user_starter/main.py:343-361 | The custom user admin lists each extra field. |
| Templates.ModelsTextFollowsUser | django_user_starter/main.py:328-341 | `models.py` mentions `AbstractUser` iff the custom user is on, and declares each extra field iff the custom user is on. The plain stub declares none of them. |
| Templates.AdminTextFollowsUser | django_user_starter/main.py:343-361 | `admin.py` mentions `UserAdmin` iff the custom user is on, and shows each extra field iff the custom user is on. |
| Templates.SerializedFieldsFollowUser | django_user_starter/main.py:634-654 | The serializer's field list holds each extra field iff the custom user is on, and so does its text: `serializers.py` quotes an extra field iff the custom user is on. The plain serializer's text quotes only its own fields and the read-only `id`. |
| Templates.SerializerListsFields | django_user_starter/main.py:634-654 | The serializer's `fields` lists each serialized field of the chosen variant. |
| Templates.MigrationCreatesColumns | django_user_starter/main.py:576-615 | The initial migration creates a column for each of its columns. |
| Templates.CustomUserFieldsAgree | django_user_starter/main.py:328-361 | Each extra field is declared by the model, created by the migration, shown by the admin and exposed by the serializer. |
| Docker.ComposeNamesServer | django_user_starter/main.py:684-729 | The compose file runs an image (`image: `) iff a database server is chosen. For each server, that server's image appears iff it is the chosen one, so a PostgreSQL project never names the MySQL image and vice versa. |
| Docker.ComposeServices | django_user_starter/main.py:684-729 | With SQLite the compose file is the web service alone, with no database service or volumes. Otherwise it has a `db` service with the server's image and volume mount, and it ends by declaring that volume. |
| Docker.ComposeMatchesSettings | django_user_starter/main.py:685-717 | The compose service's database, user, password and port match those in the settings' database block. |
| FileTree.ReplayAppend | django_user_starter/main.py:83-87 | Running two call sequences one after the other is running their concatenation. |
| FileTree.ReplaySucceeds | django_user_starter/main.py:83-87 | A run that succeeds ends in the tree its calls produce. |
| FileTree.ReplayFromNone | django_user_starter/main.py:83-87 | After a failure no later call happens. |
| FileTree.StopsAtFails | django_user_starter/main.py:83-134 | Calls that stop at one refused call, after the earlier ones went through, fail as a whole. |
| FileTree.FailureStops | django_user_starter/main.py:83-134 | Calls that fail as a whole stop at some call: every call before it went through, and it is refused on what they left. With `StopsAtFails`, failing is exactly stopping somewhere. |
| FileTree.LastWriteWins | django_user_starter/main.py:109-134 | A file holds the text of the last write to it, if no later call touches its path. |
| FileTree.FilesComeFromWrites | django_user_starter/main.py:109-134 | A file in the final tree was there before or was written by some call. |
| FileTree.MakeDirsSucceed | django_user_starter/main.py:101-107 | `mkdir(parents=True, exist_ok=True)` calls in a tree of directories always succeed and add every ancestor. |
| FileTree.WritesSucceed | django_user_starter/main.py:109-134 | Writes whose parents are directories and whose targets are not directories all succeed. |
| FileTree.WriteOntoDirFails | django_user_starter/main.py:109-134 | A write onto an existing directory makes the run fail. |
| FileTree.WritesKeepDirs | django_user_starter/main.py:109-134 | Successful writes leave the set of directories unchanged. |
| FileTree.ProjectDir.RemoveTree | django_user_starter/main.py:83-84 | `shutil.rmtree` leaves nothing behind. |
| FileTree.ProjectDir.MakeRoot | django_user_starter/main.py:85 | `mkdir()` makes an empty project directory. |
| FileTree.ProjectDir.Execute | django_user_starter/main.py:101-134 | One call succeeds exactly when the operating system allows it; on success the tree changes accordingly, and on failure it is unchanged. |
| FileTree.ProjectDir.ExecuteAll | django_user_starter/main.py:101-134 | Calls made one by one succeed exactly when the whole sequence does, and then leave the sequence's result. On failure they stop at some call (`StopsAt`): the directory holds what the calls before it made, and that call is refused there. |
| Plan.LocationInjective | django_user_starter/main.py:109-134 | Two planned files share a path only if they are the same file, or the project is named `main` and they are the two `urls.py`. |
| Plan.MainUrlsCollide | django_user_starter/main.py:311-318 | For a project named `main`, the package `urls.py` and the application `urls.py` are the same path. |
| Plan.ArtifactsFollowFlags | django_user_starter/main.py:109-134 | An artifact is produced iff it is in the baseline, or in a block whose flag is on. The blocks are: migrations for the custom user, API files for the API, Docker files for Docker. |
| Plan.ArtifactsOrdered | django_user_starter/main.py:109-134 | The artifacts are produced in one fixed order, none twice. |
| Plan.CreateDirsMakes | django_user_starter/main.py:101-107 | `_create_dirs` leaves exactly the listed directories and their parents. |
| Plan.RunOutcome | django_user_starter/main.py:83-134 | From an empty directory, the calls fail exactly when the project name collides with a top-level file. Otherwise the directories are exactly the planned ones: the skeleton, plus `main/migrations` with the custom user. |
| Plan.FileContent | django_user_starter/main.py:109-134 | Every produced file holds the text rendered for it. The one exception is the package `urls.py` of a project named `main`. |
| Plan.FileOrigin | django_user_starter/main.py:109-134 | Every file of the generated project was written for some produced artifact, so nothing stale survives. |
| Plan.ArtifactWritten | django_user_starter/main.py:83-134 | A file is present at an artifact's location iff that artifact is produced. |
| Plan.PlannedFilesFollowFlags | django_user_starter/main.py:109-134 | In the generated tree, each artifact's file is present iff it is in the baseline or its block's flag is on. |
| Plan.ProjectDirsFollowFlags | django_user_starter/main.py:101-107 | The migrations directory is planned iff the custom user is on, and `main/api` iff the API is on. |
| Generate.FeaturesFollowFlags | django_user_starter/main.py:88-96 | The list has one tag plus one per active option, and the database tag comes first. `API(<auth>)` is present iff the API is on, with the configured auth. JAZZMIN, CUSTOM_USER and DOCKER are each present iff their option is on. No tag repeats. |
| Generate.FeaturesOrdered | django_user_starter/main.py:88-96 | The tags always come in the order database, API, JAZZMIN, CUSTOM_USER, DOCKER. |
| Generate.NormalizedFeatures | django_user_starter/main.py:58-64 | For normalised options there is never an `API(SESSION)` tag. An API or Jazzmin tag always comes with CUSTOM_USER and DOCKER. |
| Generate.TagIsUpper | django_user_starter/main.py:88-89 | Every tag is written without lower-case letters, as `str.upper()` leaves it. |
| Generate.TagInjective | django_user_starter/main.py:88-96 | Different features have different tags. |
| Generate.SummaryNamesFeatures | django_user_starter/main.py:97 | The comma-joined summary names every reported feature. |
| Generate.BuildFeatures | django_user_starter/main.py:88-96 | Building the list with `append` gives exactly the specified features. |
| Generate.Generator.Run | django_user_starter/main.py:80-99 | `run` always leaves the project directory present. It succeeds iff the name does not collide. On success the directory holds exactly the planned tree, whatever it held before, and the features are reported. On failure nothing is reported, and the directory holds what the calls of `run` made before the one refused (`StopsAt` over the run's calls from an empty directory). |

## Left out

- Filesystem effects other than the modelled outcomes are not modelled. These include permissions, full disks, partial writes and `Path.cwd()`. The project directory is a parameter of the generator.
- A regular file already at the project path is not modelled: the project directory is either absent or a directory. In the code `shutil.rmtree` raises on such a file. The model could express that as one more failure of the run, but leaves the case out.
- Project names are non-empty, one path component without a NUL character, and neither `.` nor `..` (`Configuration.ProjectName`). The code does not check the name: it joins it to the working directory (django_user_starter/main.py:78). A name with `/` would be split by `pathlib` into nested directories. The empty name or `.` names the working directory itself, and `..` its parent, which `run` would then remove with `shutil.rmtree`. A name with NUL makes `mkdir` raise. Names longer than the filesystem allows, or otherwise refused by it, are outside the model too.
- Plan.Collides: paths are compared character for character, as on a case-sensitive filesystem such as Linux's. On a case-insensitive filesystem (macOS by default, Windows) a name such as `readme.md` or `MANAGE.PY` also clashes with a top-level file and makes the run fail, which `Collides` does not count.
- Plan.RunOutcome: "fails exactly on a collision" holds for that case-sensitive comparison, and for names the operating system accepts as a directory name.
- Generate.Generator.Run: `ok` iff no collision holds for that case-sensitive comparison, and for names the operating system accepts as a directory name.
- Plan.FileContent: file contents are character strings. The code calls `write_text` without an encoding, so Python encodes each text with the locale's preferred encoding and writes the platform's line ending for each `\n`. The model stands for a UTF-8 locale on a system that keeps `\n`. On Windows the files hold `\r\n` instead.
- Generate.Generator.Run: `ok` iff no collision holds under a locale that can encode the texts. `README.md`, `views.py` and the page templates hold Chinese text, so under a locale that cannot encode it (cp1252, ISO-8859-1) `write_text` raises at `README.md` for every configuration. The model has no such failure.
- The printed messages, their emoji and the `MESSAGES` table chosen by `lang` are not modelled. Only the feature tags that the completion message lists are.
- `main()` with its argument parsing and `LANG` sniffing is not modelled, and neither is `django_user_starter/cli.py`. The options are datatypes, so the choices argparse validates are the only values.
- The Python exception that stops `run` at a failed call is modelled as the run's failure result (`ok` false). No partial feature list is reported.
- `Generate.Generator.Run` takes the calls of `_write_files` as one loop over the artifact plan, since the source writes the files through a fixed sequence of method calls. Each file's text comes from the specification functions that the list-building methods (`BuildRequirements`, `BuildInstalledApps`, `BuildMiddleware`, `BuildFeatures`) are proved equal to.
- `Plan.FileContent` excludes the package `urls.py` of a project named `main`. That file holds the application's URL patterns, because the application's `urls.py` is written later to the same path.
