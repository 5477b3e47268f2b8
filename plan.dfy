/**
 * What `Generator.run` does to the project directory: the directories
 * `_create_dirs` makes, then the files (and the one directory) that
 * `_write_files` produces, in the order the source writes them, each with
 * the text the model renders for it.
 */
module Plan {
  import opened Configuration
  import opened Text
  import opened Order
  import opened FileTree
  import Manifest
  import Settings
  import Templates
  import Docker

  /** Everything `_write_files` can produce, in the order it writes them. */
  datatype Artifact =
    | Manage | RequirementsFile | Readme
    | SettingsFile | RootUrls | Wsgi
    | Models | Admin | Views | AppUrls | AppInit
    | BasePage | HomePage | LoginPage | RegisterPage | ProfilePage
    | MigrationsDir | MigrationsInit | InitialMigration
    | ApiUrls | ApiInit | Serializers | ApiViews
    | Dockerfile | Compose | Dockerignore

  function Rank(a: Artifact): int
  {
    match a
    case Manage => 0 case RequirementsFile => 1 case Readme => 2
    case SettingsFile => 3 case RootUrls => 4 case Wsgi => 5
    case Models => 6 case Admin => 7 case Views => 8 case AppUrls => 9 case AppInit => 10
    case BasePage => 11 case HomePage => 12 case LoginPage => 13 case RegisterPage => 14
    case ProfilePage => 15
    case MigrationsDir => 16 case MigrationsInit => 17 case InitialMigration => 18
    case ApiUrls => 19 case ApiInit => 20 case Serializers => 21 case ApiViews => 22
    case Dockerfile => 23 case Compose => 24 case Dockerignore => 25
  }

  /** The directory an artifact goes into. */
  datatype Folder = Top | ProjectPackage | App | Pages | Migrations | Api

  function FolderOf(a: Artifact): Folder
  {
    match a
    case Manage | RequirementsFile | Readme | Dockerfile | Compose | Dockerignore => Top
    case SettingsFile | RootUrls | Wsgi => ProjectPackage
    case Models | Admin | Views | AppUrls | AppInit | MigrationsDir => App
    case BasePage | HomePage | LoginPage | RegisterPage | ProfilePage => Pages
    case MigrationsInit | InitialMigration => Migrations
    case ApiUrls | ApiInit | Serializers | ApiViews => Api
  }

  /** A folder's path inside the project directory; the project package carries the project's name. */
  function FolderPath(f: Folder, name: ProjectName): seq<string>
  {
    match f
    case Top => []
    case ProjectPackage => [name]
    case App => ["main"]
    case Pages => ["templates", "main"]
    case Migrations => ["main", "migrations"]
    case Api => ["main", "api"]
  }

  function FileName(a: Artifact): string
  {
    match a
    case Manage => "manage.py"
    case RequirementsFile => "requirements.txt"
    case Readme => "README.md"
    case SettingsFile => "settings.py"
    case RootUrls => "urls.py"
    case Wsgi => "wsgi.py"
    case Models => "models.py"
    case Admin => "admin.py"
    case Views => "views.py"
    case AppUrls => "urls.py"
    case AppInit => "__init__.py"
    case BasePage => "base.html"
    case HomePage => "home.html"
    case LoginPage => "login.html"
    case RegisterPage => "register.html"
    case ProfilePage => "profile.html"
    case MigrationsDir => "migrations"
    case MigrationsInit => "__init__.py"
    case InitialMigration => "0001_initial.py"
    case ApiUrls => "urls.py"
    case ApiInit => "__init__.py"
    case Serializers => "serializers.py"
    case ApiViews => "views.py"
    case Dockerfile => "Dockerfile"
    case Compose => "docker-compose.yml"
    case Dockerignore => ".dockerignore"
  }

  function Location(a: Artifact, name: ProjectName): Path
  {
    FolderPath(FolderOf(a), name) + [FileName(a)]
  }

  lemma FolderPathDetermined(f: Folder, g: Folder, name: ProjectName)
    requires FolderPath(f, name) == FolderPath(g, name)
    ensures f == g || (name == "main" && ((f == ProjectPackage && g == App) || (f == App && g == ProjectPackage)))
  {
  }

  /** The project's and the application's `urls.py`, in either order. */
  predicate UrlsPair(a: Artifact, b: Artifact)
  {
    (a == RootUrls && b == AppUrls) || (a == AppUrls && b == RootUrls)
  }

  /** Within one folder, file names are distinct. */
  lemma FileNameInFolder(a: Artifact, b: Artifact)
    requires FolderOf(a) == FolderOf(b) && FileName(a) == FileName(b)
    ensures a == b
  {
    match a
    case Manage => case RequirementsFile => case Readme =>
    case SettingsFile => case RootUrls => case Wsgi =>
    case Models => case Admin => case Views => case AppUrls => case AppInit =>
    case BasePage => case HomePage => case LoginPage => case RegisterPage => case ProfilePage =>
    case MigrationsDir => case MigrationsInit => case InitialMigration =>
    case ApiUrls => case ApiInit => case Serializers => case ApiViews =>
    case Dockerfile => case Compose => case Dockerignore =>
  }

  /** The project package and the application share one file name, `urls.py`. */
  lemma PackageAndAppShare(a: Artifact, b: Artifact)
    requires FolderOf(a) == ProjectPackage && FolderOf(b) == App && FileName(a) == FileName(b)
    ensures a == RootUrls && b == AppUrls
  {
    match a
    case SettingsFile => case RootUrls => case Wsgi =>
    case _ =>
  }

  lemma AppendedDetermined(x: seq<string>, y: seq<string>, u: string, v: string)
    requires x + [u] == y + [v]
    ensures x == y && u == v
  {
    assert |x| == |y|;
    assert x == (x + [u])[..|x|];
    assert y == (y + [v])[..|y|];
    assert u == (x + [u])[|x|];
  }

  /**
   * Two artifacts share a location only when they are the same artifact,
   * or when the project is itself named `main`: its `urls.py` then lands on
   * the application's `main/urls.py` (see `MainUrlsCollide`).
   */
  lemma LocationInjective(a: Artifact, b: Artifact, name: ProjectName)
    requires Location(a, name) == Location(b, name)
    ensures a == b || (name == "main" && UrlsPair(a, b))
  {
    AppendedDetermined(FolderPath(FolderOf(a), name), FolderPath(FolderOf(b), name), FileName(a), FileName(b));
    FolderPathDetermined(FolderOf(a), FolderOf(b), name);
    if FolderOf(a) == FolderOf(b) {
      FileNameInFolder(a, b);
    } else if FolderOf(a) == ProjectPackage {
      PackageAndAppShare(a, b);
    } else {
      PackageAndAppShare(b, a);
    }
  }

  /** A project named `main` has its `urls.py` where the application's is. */
  lemma MainUrlsCollide()
    ensures Location(RootUrls, "main") == Location(AppUrls, "main")
  {
    assert FolderPath(ProjectPackage, "main") == FolderPath(App, "main");
  }

  /** The text written for an artifact. */
  function Content(a: Artifact, o: Options): string
    requires a != MigrationsDir
  {
    match a
    case Manage => Templates.ManageText(o.name)
    case RequirementsFile => Manifest.RequirementsText(o)
    case Readme => Templates.ReadmeText(o.name, o.lang)
    case SettingsFile => Settings.SettingsText(o)
    case RootUrls => Templates.RootUrlsText
    case Wsgi => Templates.WsgiText(o.name)
    case Models => Templates.ModelsText(o.user)
    case Admin => Templates.AdminText(o.user)
    case Views => Templates.ViewsText
    case AppUrls => Templates.AppUrlsText
    case AppInit => ""
    case BasePage => Templates.BaseTemplate
    case HomePage => Templates.HomeTemplate
    case LoginPage => Templates.LoginTemplate
    case RegisterPage => Templates.RegisterTemplate
    case ProfilePage => Templates.ProfileTemplate
    case MigrationsInit => ""
    case InitialMigration => Templates.MigrationText()
    case ApiUrls => Templates.ApiUrlsText
    case ApiInit => ""
    case Serializers => Templates.SerializersText(o.user)
    case ApiViews => Templates.ApiViewsText
    case Dockerfile => Docker.DockerfileText
    case Compose => Docker.ComposeText(o.db)
    case Dockerignore => Docker.DockerignoreText
  }

  /** The filesystem call that produces an artifact, given the text it is to hold. */
  function PathStep(a: Artifact, name: ProjectName, text: string): Step
  {
    if a == MigrationsDir then MakeDir(Location(a, name)) else Write(Location(a, name), text)
  }

  function StepsOf(arts: seq<Artifact>, name: ProjectName, texts: seq<string>): (steps: seq<Step>)
    requires |texts| == |arts|
    ensures |steps| == |arts|
  {
    seq(|arts|, i requires 0 <= i < |arts| => PathStep(arts[i], name, texts[i]))
  }

  /** The texts written for a list of artifacts (none for the migrations directory). */
  function Texts(arts: seq<Artifact>, o: Options): (texts: seq<string>)
    ensures |texts| == |arts|
  {
    seq(|arts|, i requires 0 <= i < |arts| => if arts[i] == MigrationsDir then "" else Content(arts[i], o))
  }

  /** What every project gets, up to the profile page. */
  const Baseline: seq<Artifact> := [
    Manage, RequirementsFile, Readme, SettingsFile, RootUrls, Wsgi,
    Models, Admin, Views, AppUrls, AppInit,
    BasePage, HomePage, LoginPage, RegisterPage, ProfilePage]

  /** What `_migration` produces: its directory, then two files in it. */
  function MigrationBlock(user: bool): seq<Artifact>
  {
    if user then [MigrationsDir, MigrationsInit, InitialMigration] else []
  }

  /** What `_api_urls`, `_serializers` and `_api_views` write. */
  function ApiFiles(api: bool): seq<Artifact>
  {
    if api then [ApiUrls, ApiInit, Serializers, ApiViews] else []
  }

  /** What `_dockerfile`, `_docker_compose` and `_dockerignore` write. */
  function DockerFiles(docker: bool): seq<Artifact>
  {
    if docker then [Dockerfile, Compose, Dockerignore] else []
  }

  /** `_write_files`: the artifacts in the order they are produced. */
  function Artifacts(o: Options): seq<Artifact>
  {
    Baseline + MigrationBlock(o.user) + ApiFiles(o.api) + DockerFiles(o.docker)
  }

  lemma BaselineByRank(a: Artifact)
    ensures a in Baseline <==> Rank(a) < 16
  {
    if Rank(a) < 16 {
      assert Baseline[Rank(a)] == a by {
        match a
        case Manage => case RequirementsFile => case Readme =>
        case SettingsFile => case RootUrls => case Wsgi =>
        case Models => case Admin => case Views => case AppUrls => case AppInit =>
        case BasePage => case HomePage => case LoginPage => case RegisterPage => case ProfilePage =>
        case _ =>
      }
    } else {
      forall i | 0 <= i < |Baseline| ensures Baseline[i] != a {
        assert Rank(Baseline[i]) == i;
      }
    }
  }

  /** The baseline always, each optional block with its flag. */
  predicate Planned(o: Options, a: Artifact)
  {
    || a in Baseline
    || (o.user && a in [MigrationsDir, MigrationsInit, InitialMigration])
    || (o.api && a in [ApiUrls, ApiInit, Serializers, ApiViews])
    || (o.docker && a in [Dockerfile, Compose, Dockerignore])
  }

  /** Which artifacts a configuration produces: the baseline always, each optional block with its flag. */
  lemma ArtifactsFollowFlags(o: Options, a: Artifact)
    ensures a in Artifacts(o) <==> Planned(o, a)
    ensures a in Baseline <==> Rank(a) < 16
  {
    BaselineByRank(a);
  }

  lemma BaselineRanked()
    ensures Ascending(Baseline, Rank) && RanksFrom(Baseline, Rank, 0) && RanksBelow(Baseline, Rank, 16)
  {
    forall i | 0 <= i < |Baseline| ensures Rank(Baseline[i]) == i {
      BaselineByRank(Baseline[i]);
    }
  }

  lemma MigrationBlockRanked(user: bool)
    ensures var b := MigrationBlock(user);
      Ascending(b, Rank) && RanksFrom(b, Rank, 16) && RanksBelow(b, Rank, 19)
  {
  }

  lemma ApiBlockRanked(api: bool)
    ensures Ascending(ApiFiles(api), Rank) && RanksFrom(ApiFiles(api), Rank, 19) && RanksBelow(ApiFiles(api), Rank, 23)
  {
  }

  lemma DockerBlockRanked(docker: bool)
    ensures Ascending(DockerFiles(docker), Rank) && RanksFrom(DockerFiles(docker), Rank, 23) && RanksBelow(DockerFiles(docker), Rank, 26)
  {
  }

  lemma UpToMigrationRanked(user: bool)
    ensures var s := Baseline + MigrationBlock(user);
      Ascending(s, Rank) && RanksFrom(s, Rank, 0) && RanksBelow(s, Rank, 19)
  {
    BaselineRanked();
    MigrationBlockRanked(user);
    AscendingAppend(Baseline, MigrationBlock(user), Rank, 0, 16, 19);
  }

  lemma UpToApiRanked(user: bool, api: bool)
    ensures var s := Baseline + MigrationBlock(user) + ApiFiles(api);
      Ascending(s, Rank) && RanksFrom(s, Rank, 0) && RanksBelow(s, Rank, 23)
  {
    UpToMigrationRanked(user);
    ApiBlockRanked(api);
    AscendingAppend(Baseline + MigrationBlock(user), ApiFiles(api), Rank, 0, 19, 23);
  }

  /** The artifacts come in the order of their ranks, so none is produced twice. */
  lemma ArtifactsOrdered(o: Options)
    ensures Ascending(Artifacts(o), Rank)
  {
    UpToApiRanked(o.user, o.api);
    DockerBlockRanked(o.docker);
    AscendingAppend(Baseline + MigrationBlock(o.user) + ApiFiles(o.api), DockerFiles(o.docker), Rank, 0, 23, 26);
  }

  /** `_create_dirs`: the directories made with `mkdir(parents=True, exist_ok=True)`. */
  function DirList(o: Options): seq<Path>
  {
    [[o.name], ["main"], ["templates", "main"], ["static", "css"], ["static", "js"]]
    + (if o.api then [["main", "api"]] else [])
  }

  /** The directories `_create_dirs` leaves in the project directory. */
  function CreatedDirs(o: Options): set<Path>
  {
    {[o.name], ["main"], ["templates"], ["templates", "main"], ["static"], ["static", "css"], ["static", "js"]}
    + (if o.api then {["main", "api"]} else {})
  }

  const MigrationsPath: Path := ["main", "migrations"]

  /** The directories of a generated project. */
  function ProjectDirs(o: Options): set<Path>
  {
    CreatedDirs(o) + (if o.user then {MigrationsPath} else {})
  }

  /** The names `_write_files` uses directly inside the project directory. */
  function TopLevelNames(o: Options): set<string>
  {
    {"manage.py", "requirements.txt", "README.md"}
    + (if o.docker then {"Dockerfile", "docker-compose.yml", ".dockerignore"} else {})
  }

  /**
   * A project named like one of its own top-level files: the project
   * package directory takes that name first, and writing the file onto it
   * fails.
   */
  predicate Collides(o: Options)
  {
    o.name in TopLevelNames(o)
  }

  function FileSteps(o: Options): seq<Step>
  {
    StepsOf(Artifacts(o), o.name, Texts(Artifacts(o), o))
  }

  /** The calls of `run` when the artifacts are given the texts `texts`. */
  function StepsWith(o: Options, texts: seq<string>): seq<Step>
    requires |texts| == |Artifacts(o)|
  {
    MakeDirsSteps(DirList(o)) + StepsOf(Artifacts(o), o.name, texts)
  }

  /** Every filesystem call `run` makes inside the fresh project directory. */
  function RunSteps(o: Options): seq<Step>
  {
    StepsWith(o, Texts(Artifacts(o), o))
  }

  /**
   * The tree the calls build when each is carried out in turn. It is what
   * `run` leaves behind only when the project name does not collide
   * (`RunOutcome`); otherwise a call fails and `run` raises before the end.
   * The lemmas below about `Generated` describe the generated project under
   * that proviso.
   */
  function Generated(o: Options): Tree
  {
    ApplyAll(map[], RunSteps(o))
  }

  /** `_create_dirs` makes exactly the planned directories and their parents. */
  lemma CreateDirsMakes(o: Options)
    ensures DirsMade(DirList(o)) == CreatedDirs(o)
  {
    var ps := DirList(o);
    forall i | 0 <= i < |ps| ensures Prefixes(ps[i]) == if |ps[i]| == 1 then {ps[i]} else {[ps[i][0]], ps[i]} {
      ShortPrefixes(ps[i]);
    }
    forall q ensures q in DirsMade(ps) <==> q in CreatedDirs(o) {
      DirsMadeMembers(ps, q);
      if q in CreatedDirs(o) {
        if q == ["templates"] || q == ["templates", "main"] {
          assert q in Prefixes(ps[2]);
        } else if q == ["static"] || q == ["static", "css"] {
          assert q in Prefixes(ps[3]);
        } else if q == ["static", "js"] {
          assert q in Prefixes(ps[4]);
        } else if q == ["main", "api"] {
          assert q in Prefixes(ps[5]);
        } else if q == ["main"] {
          assert q in Prefixes(ps[1]);
        } else {
          assert q in Prefixes(ps[0]);
        }
      }
    }
  }

  const BaseTopNames: set<string> := {"manage.py", "requirements.txt", "README.md"}

  const DockerNames: set<string> := {"Dockerfile", "docker-compose.yml", ".dockerignore"}

  /** The directories of a project, by shape: top-level ones, and second-level ones by their last component. */
  lemma ProjectDirsShape(o: Options, q: Path)
    requires q in ProjectDirs(o)
    ensures |q| == 1 ==> q[0] in {o.name, "main", "templates", "static"}
    ensures |q| == 2 ==> q[1] in {"main", "css", "js", "api", "migrations"}
    ensures |q| <= 2
  {
  }

  /** No file the generator writes is named like one of its fixed directories. */
  lemma FileNameNotDirName(a: Artifact)
    requires a != MigrationsDir
    ensures FileName(a) !in {"main", "templates", "static", "css", "js", "api", "migrations"}
  {
    match a
    case Manage => case RequirementsFile => case Readme =>
    case SettingsFile => case RootUrls => case Wsgi =>
    case Models => case Admin => case Views => case AppUrls => case AppInit =>
    case BasePage => case HomePage => case LoginPage => case RegisterPage => case ProfilePage =>
    case MigrationsDir => case MigrationsInit => case InitialMigration =>
    case ApiUrls => case ApiInit => case Serializers => case ApiViews =>
    case Dockerfile => case Compose => case Dockerignore =>
  }

  /** A file lands on a directory only when it is a top-level file named like the project. */
  lemma FileOntoDir(o: Options, a: Artifact)
    requires a != MigrationsDir
    ensures Location(a, o.name) in ProjectDirs(o) ==> FolderOf(a) == Top && FileName(a) == o.name
  {
    var p := Location(a, o.name);
    if p in ProjectDirs(o) {
      ProjectDirsShape(o, p);
      FileNameNotDirName(a);
      assert p[|p| - 1] == FileName(a);
    }
  }

  /** The folder of each file exists once `_create_dirs` (and, for migrations, `_migration`) has run. */
  lemma FolderMade(o: Options, f: Folder)
    ensures f in {ProjectPackage, App, Pages} ==> FolderPath(f, o.name) in CreatedDirs(o)
    ensures f == Api && o.api ==> FolderPath(f, o.name) in CreatedDirs(o)
    ensures f == Migrations && o.user ==> FolderPath(f, o.name) in ProjectDirs(o)
    ensures f == Top <==> FolderPath(f, o.name) == []
  {
  }

  lemma BaselineFolders(a: Artifact)
    requires a in Baseline
    ensures FolderOf(a) in {Top, ProjectPackage, App, Pages}
    ensures FolderOf(a) == Top ==> FileName(a) in BaseTopNames
    ensures a != MigrationsDir
  {
    BaselineByRank(a);
  }

  /** The writes after the migrations directory: the migration, API and Docker files. */
  function LaterFiles(o: Options): seq<Artifact>
  {
    (if o.user then [MigrationsInit, InitialMigration] else []) + ApiFiles(o.api) + DockerFiles(o.docker)
  }

  lemma DockerFolders(a: Artifact)
    requires a in DockerFiles(true)
    ensures FolderOf(a) == Top && FileName(a) in DockerNames
  {
    assert a == Dockerfile || a == Compose || a == Dockerignore;
  }

  lemma LaterFolders(o: Options, a: Artifact)
    requires a in LaterFiles(o)
    ensures || (FolderOf(a) == Migrations && o.user)
            || (FolderOf(a) == Api && o.api)
            || (FolderOf(a) == Top && o.docker && FileName(a) in DockerNames)
    ensures a != MigrationsDir
  {
    var migrations: seq<Artifact> := if o.user then [MigrationsInit, InitialMigration] else [];
    if a in migrations {
      assert a == MigrationsInit || a == InitialMigration;
    } else if a in ApiFiles(o.api) {
      assert a == ApiUrls || a == ApiInit || a == Serializers || a == ApiViews;
    } else {
      assert o.docker && a in DockerFiles(true);
      DockerFolders(a);
    }
  }

  /** Where the baseline files go, relative to the directories `_create_dirs` made. */
  lemma BaselinePlacement(o: Options, a: Artifact)
    requires a in Baseline
    ensures Location(a, o.name) in CreatedDirs(o) ==> o.name in BaseTopNames
    ensures ParentIn(Location(a, o.name), CreatedDirs(o))
    ensures Location(a, o.name) != MigrationsPath
  {
    BaselineFolders(a);
    FileOntoDir(o, a);
    FolderMade(o, FolderOf(a));
    var p := Location(a, o.name);
    assert p[..|p| - 1] == FolderPath(FolderOf(a), o.name);
    FileNameNotDirName(a);
    assert p[|p| - 1] == FileName(a);
  }

  /** Where the later files go, relative to all the directories of the project. */
  lemma LaterPlacement(o: Options, a: Artifact)
    requires a in LaterFiles(o)
    ensures Location(a, o.name) in ProjectDirs(o) ==> o.docker && o.name in DockerNames
    ensures ParentIn(Location(a, o.name), ProjectDirs(o))
    ensures a != MigrationsDir
  {
    LaterFolders(o, a);
    FileOntoDir(o, a);
    FolderMade(o, FolderOf(a));
    var p := Location(a, o.name);
    assert p[..|p| - 1] == FolderPath(FolderOf(a), o.name);
  }

  lemma StepsOfAppend(a: seq<Artifact>, b: seq<Artifact>, name: ProjectName, ta: seq<string>, tb: seq<string>)
    requires |ta| == |a| && |tb| == |b|
    ensures StepsOf(a + b, name, ta + tb) == StepsOf(a, name, ta) + StepsOf(b, name, tb)
  {
  }

  /** The directory phase always succeeds. */
  lemma DirPhase(o: Options)
    ensures Replay(Some(map[]), MakeDirsSteps(DirList(o))) == Some(DirTree(CreatedDirs(o)))
  {
    assert DirTree({}) == map[];
    MakeDirsSucceed({}, DirList(o));
    CreateDirsMakes(o);
    assert {} + DirsMade(DirList(o)) == CreatedDirs(o);
  }

  /** The `i`-th baseline write, and where it lands. */
  lemma BaselineStep(o: Options, texts: seq<string>, i: nat)
    requires |texts| == |Baseline| && i < |Baseline|
    ensures var step := StepsOf(Baseline, o.name, texts)[i];
      && step.Write? && step.path == Location(Baseline[i], o.name)
      && (step.path in CreatedDirs(o) ==> o.name in BaseTopNames)
      && ParentIn(step.path, CreatedDirs(o))
      && !Touches(step, MigrationsPath)
  {
    BaselineFolders(Baseline[i]);
    BaselinePlacement(o, Baseline[i]);
  }

  lemma BaselineSteps(o: Options, texts: seq<string>)
    requires |texts| == |Baseline|
    ensures var steps := StepsOf(Baseline, o.name, texts);
      forall i :: 0 <= i < |steps| ==>
        && steps[i].Write? && steps[i].path == Location(Baseline[i], o.name)
        && (steps[i].path in CreatedDirs(o) ==> o.name in BaseTopNames)
        && ParentIn(steps[i].path, CreatedDirs(o))
        && !Touches(steps[i], MigrationsPath)
  {
    forall i | 0 <= i < |Baseline| {
      BaselineStep(o, texts, i);
    }
  }

  lemma BaseTopLocations(name: ProjectName)
    ensures Location(Manage, name) == ["manage.py"]
    ensures Location(RequirementsFile, name) == ["requirements.txt"]
    ensures Location(Readme, name) == ["README.md"]
  {
  }

  lemma DockerLocations(name: ProjectName)
    ensures Location(Dockerfile, name) == ["Dockerfile"]
    ensures Location(Compose, name) == ["docker-compose.yml"]
    ensures Location(Dockerignore, name) == [".dockerignore"]
  {
  }

  /** The baseline file a project named like one of them clashes with. */
  lemma BaselineClash(o: Options) returns (k: nat)
    requires o.name in BaseTopNames
    ensures k < |Baseline| && Location(Baseline[k], o.name) == [o.name]
  {
    BaseTopLocations(o.name);
    if o.name == "manage.py" {
      k := 0;
    } else if o.name == "requirements.txt" {
      k := 1;
    } else {
      k := 2;
    }
  }

  /** A project named `manage.py`, `requirements.txt` or `README.md` fails on that file. */
  lemma BaselineFails(o: Options, texts: seq<string>)
    requires |texts| == |Baseline|
    requires o.name in BaseTopNames
    ensures Replay(Some(DirTree(CreatedDirs(o))), StepsOf(Baseline, o.name, texts)) == None
  {
    var steps := StepsOf(Baseline, o.name, texts);
    BaselineSteps(o, texts);
    var k := BaselineClash(o);
    assert steps[k].path in CreatedDirs(o);
    WriteOntoDirFails(DirTree(CreatedDirs(o)), steps, CreatedDirs(o), k);
  }

  /** Otherwise the baseline writes succeed and leave the directories as `_create_dirs` made them. */
  lemma BaselineSucceeds(o: Options, texts: seq<string>)
    requires |texts| == |Baseline|
    requires o.name !in BaseTopNames
    ensures var t0 := DirTree(CreatedDirs(o));
      var r := Replay(Some(t0), StepsOf(Baseline, o.name, texts));
      && r == Some(ApplyAll(t0, StepsOf(Baseline, o.name, texts)))
      && (forall q :: IsDir(r.value, q) <==> q in CreatedDirs(o))
      && MigrationsPath !in r.value
  {
    var t0 := DirTree(CreatedDirs(o));
    var steps := StepsOf(Baseline, o.name, texts);
    BaselineSteps(o, texts);
    WritesSucceed(t0, steps, CreatedDirs(o));
    ApplyAllUntouched(t0, steps, MigrationsPath);
  }

  /** `_migration` makes its directory inside `main`, which never fails. */
  lemma MigrationPhase(o: Options, t1: Tree, texts: seq<string>)
    requires forall q :: IsDir(t1, q) <==> q in CreatedDirs(o)
    requires MigrationsPath !in t1
    requires |texts| == if o.user then 1 else 0
    ensures var steps := StepsOf(if o.user then [MigrationsDir] else [], o.name, texts);
      var r := Replay(Some(t1), steps);
      && r == Some(ApplyAll(t1, steps))
      && (forall q :: IsDir(r.value, q) <==> q in ProjectDirs(o))
  {
    var steps := StepsOf(if o.user then [MigrationsDir] else [], o.name, texts);
    if o.user {
      assert Location(MigrationsDir, o.name) == MigrationsPath;
      assert steps == [MakeDir(MigrationsPath)];
      assert steps[..0] == [];
      assert IsDir(t1, ["main"]);
      assert Allowed(t1, MakeDir(MigrationsPath));
    }
  }

  lemma LaterSteps(o: Options, texts: seq<string>)
    requires |texts| == |LaterFiles(o)|
    ensures var steps := StepsOf(LaterFiles(o), o.name, texts);
      forall i :: 0 <= i < |steps| ==>
        && steps[i].Write? && steps[i].path == Location(LaterFiles(o)[i], o.name)
        && (steps[i].path in ProjectDirs(o) ==> o.docker && o.name in DockerNames)
        && ParentIn(steps[i].path, ProjectDirs(o))
  {
    var arts := LaterFiles(o);
    forall i | 0 <= i < |arts| {
      LaterPlacement(o, arts[i]);
    }
  }

  /** The Docker file a project named like one of them clashes with. */
  lemma LaterClash(o: Options) returns (k: nat)
    requires o.docker && o.name in DockerNames
    ensures k < |LaterFiles(o)| && Location(LaterFiles(o)[k], o.name) == [o.name]
  {
    var before := (if o.user then [MigrationsInit, InitialMigration] else []) + ApiFiles(o.api);
    var arts := LaterFiles(o);
    assert arts == before + [Dockerfile, Compose, Dockerignore];
    DockerLocations(o.name);
    if o.name == "Dockerfile" {
      k := |before|;
      assert arts[k] == Dockerfile;
    } else if o.name == "docker-compose.yml" {
      k := |before| + 1;
      assert arts[k] == Compose;
    } else {
      k := |before| + 2;
      assert arts[k] == Dockerignore;
    }
  }

  /** With the Docker files, a project named like one of them fails on that file. */
  lemma LaterFails(o: Options, t2: Tree, texts: seq<string>)
    requires forall q :: IsDir(t2, q) <==> q in ProjectDirs(o)
    requires |texts| == |LaterFiles(o)|
    requires o.docker && o.name in DockerNames
    ensures Replay(Some(t2), StepsOf(LaterFiles(o), o.name, texts)) == None
  {
    var steps := StepsOf(LaterFiles(o), o.name, texts);
    LaterSteps(o, texts);
    var k := LaterClash(o);
    assert steps[k].path in ProjectDirs(o);
    WriteOntoDirFails(t2, steps, ProjectDirs(o), k);
  }

  /** Otherwise the later writes succeed and leave the directories as they were. */
  lemma LaterSucceeds(o: Options, t2: Tree, texts: seq<string>)
    requires forall q :: IsDir(t2, q) <==> q in ProjectDirs(o)
    requires |texts| == |LaterFiles(o)|
    requires !(o.docker && o.name in DockerNames)
    ensures var steps := StepsOf(LaterFiles(o), o.name, texts);
      var r := Replay(Some(t2), steps);
      && r == Some(ApplyAll(t2, steps))
      && (forall q :: IsDir(r.value, q) <==> q in ProjectDirs(o))
  {
    LaterSteps(o, texts);
    WritesSucceed(t2, StepsOf(LaterFiles(o), o.name, texts), ProjectDirs(o));
  }

  /** The writes, from the tree `_create_dirs` leaves: they fail exactly on a colliding name. */
  lemma WritePhases(o: Options, tb: seq<string>, tm: seq<string>, tl: seq<string>)
    requires |tb| == |Baseline| && |tm| == (if o.user then 1 else 0) && |tl| == |LaterFiles(o)|
    ensures var steps := StepsOf(Baseline, o.name, tb)
        + StepsOf(if o.user then [MigrationsDir] else [], o.name, tm)
        + StepsOf(LaterFiles(o), o.name, tl);
      var r := Replay(Some(DirTree(CreatedDirs(o))), steps);
      && (Collides(o) ==> r == None)
      && (!Collides(o) ==> r.Some? && forall q :: IsDir(r.value, q) <==> q in ProjectDirs(o))
  {
    var mdir: seq<Artifact> := if o.user then [MigrationsDir] else [];
    var sb, sm, sl := StepsOf(Baseline, o.name, tb), StepsOf(mdir, o.name, tm), StepsOf(LaterFiles(o), o.name, tl);
    var t0 := DirTree(CreatedDirs(o));
    ReplayAppend(Some(t0), sb + sm, sl);
    ReplayAppend(Some(t0), sb, sm);
    if o.name in BaseTopNames {
      BaselineFails(o, tb);
      ReplayFromNone(sm);
      ReplayFromNone(sl);
    } else {
      BaselineSucceeds(o, tb);
      var t1 := ApplyAll(t0, sb);
      MigrationPhase(o, t1, tm);
      var t2 := ApplyAll(t1, sm);
      if o.docker && o.name in DockerNames {
        LaterFails(o, t2, tl);
      } else {
        LaterSucceeds(o, t2, tl);
      }
    }
  }

  lemma StepsOfThree(a: seq<Artifact>, b: seq<Artifact>, c: seq<Artifact>, name: ProjectName, texts: seq<string>)
    requires |texts| == |a + b + c|
    ensures StepsOf(a + b + c, name, texts)
      == StepsOf(a, name, texts[..|a|]) + StepsOf(b, name, texts[|a|..|a| + |b|]) + StepsOf(c, name, texts[|a| + |b|..])
  {
    var ta, tb, tc := texts[..|a|], texts[|a|..|a| + |b|], texts[|a| + |b|..];
    assert texts == ta + tb + tc;
    StepsOfAppend(a + b, c, name, ta + tb, tc);
    StepsOfAppend(a, b, name, ta, tb);
  }

  lemma ArtifactsSplit(o: Options)
    ensures Artifacts(o) == Baseline + (if o.user then [MigrationsDir] else []) + LaterFiles(o)
  {
  }

  /** The calls of a run: the directories, the baseline writes, the migrations directory, the later writes. */
  lemma RunSplit(o: Options, texts: seq<string>)
    requires |texts| == |Artifacts(o)|
    ensures var m := if o.user then 1 else 0;
      && |Baseline| + m <= |texts|
      && StepsWith(o, texts) == MakeDirsSteps(DirList(o))
        + (StepsOf(Baseline, o.name, texts[..|Baseline|])
           + StepsOf(if o.user then [MigrationsDir] else [], o.name, texts[|Baseline|..|Baseline| + m])
           + StepsOf(LaterFiles(o), o.name, texts[|Baseline| + m..]))
  {
    ArtifactsSplit(o);
    StepsOfThree(Baseline, if o.user then [MigrationsDir] else [], LaterFiles(o), o.name, texts);
  }

  /** Whatever the texts, the calls fail exactly on a colliding name, and otherwise make the planned directories. */
  lemma RunOutcomeWith(o: Options, texts: seq<string>)
    requires |texts| == |Artifacts(o)|
    ensures var r := Replay(Some(map[]), StepsWith(o, texts));
      && (Collides(o) ==> r == None)
      && (!Collides(o) ==> r == Some(ApplyAll(map[], StepsWith(o, texts))))
      && (!Collides(o) ==> forall q :: IsDir(ApplyAll(map[], StepsWith(o, texts)), q) <==> q in ProjectDirs(o))
  {
    var m := if o.user then 1 else 0;
    var tb, tm, tl := texts[..|Baseline|], texts[|Baseline|..|Baseline| + m], texts[|Baseline| + m..];
    var writes := StepsOf(Baseline, o.name, tb)
      + StepsOf(if o.user then [MigrationsDir] else [], o.name, tm)
      + StepsOf(LaterFiles(o), o.name, tl);
    RunSplit(o, texts);
    DirPhase(o);
    ReplayAppend(Some(map[]), MakeDirsSteps(DirList(o)), writes);
    WritePhases(o, tb, tm, tl);
    var r := Replay(Some(map[]), StepsWith(o, texts));
    if r.Some? {
      ReplaySucceeds(map[], StepsWith(o, texts), r.value);
    }
  }

  /**
   * `run` on a fresh project directory: every call succeeds, unless the
   * project is named like one of its own top-level files, in which case a
   * write fails; on success the project holds exactly the planned directories.
   */
  lemma RunOutcome(o: Options)
    ensures Replay(Some(map[]), RunSteps(o)) == if Collides(o) then None else Some(Generated(o))
    ensures !Collides(o) ==> forall q :: IsDir(Generated(o), q) <==> q in ProjectDirs(o)
  {
    RunOutcomeWith(o, Texts(Artifacts(o), o));
  }

  /** The calls of `run` are those of `_create_dirs` followed by those of `_write_files`. */
  lemma RunInPhases(o: Options)
    ensures RunSteps(o) == MakeDirsSteps(DirList(o)) + FileSteps(o)
  {
  }

  /** The outcome of `_create_dirs` followed by `_write_files`, one call after the other. */
  lemma RunByPhases(o: Options)
    ensures Replay(Replay(Some(map[]), MakeDirsSteps(DirList(o))), FileSteps(o))
      == if Collides(o) then None else Some(Generated(o))
    ensures Replay(None, FileSteps(o)) == None
  {
    RunInPhases(o);
    ReplayAppend(Some(map[]), MakeDirsSteps(DirList(o)), FileSteps(o));
    RunOutcome(o);
    ReplayFromNone(FileSteps(o));
  }

  /** The call that produces the `i`-th artifact, and the one path it can change. */
  lemma StepAt(o: Options, texts: seq<string>, i: nat)
    requires |texts| == |Artifacts(o)| && i < |Artifacts(o)|
    ensures var arts := Artifacts(o);
      var step := StepsWith(o, texts)[|DirList(o)| + i];
      && |StepsWith(o, texts)| == |DirList(o)| + |arts|
      && step == PathStep(arts[i], o.name, texts[i])
      && step.path == Location(arts[i], o.name)
      && (step.Write? <==> arts[i] != MigrationsDir)
      && (forall p :: Touches(step, p) <==> p == Location(arts[i], o.name))
  {
  }

  /** Later calls never touch the location of an earlier artifact, except `main/urls.py` in a project named `main`. */
  lemma LaterStepsMissLocation(o: Options, i: nat, j: nat)
    requires i < j < |Artifacts(o)|
    requires !(o.name == "main" && Artifacts(o)[i] == RootUrls)
    ensures Location(Artifacts(o)[j], o.name) != Location(Artifacts(o)[i], o.name)
  {
    var arts := Artifacts(o);
    ArtifactsOrdered(o);
    AscendingOrders(arts, Rank);
    if Location(arts[j], o.name) == Location(arts[i], o.name) {
      LocationInjective(arts[j], arts[i], o.name);
    }
  }

  /** Whatever the texts, the file of the `i`-th artifact holds its text at the end. */
  lemma LastArtifactWins(o: Options, texts: seq<string>, i: nat)
    requires |texts| == |Artifacts(o)| && i < |Artifacts(o)|
    requires Artifacts(o)[i] != MigrationsDir
    requires !(o.name == "main" && Artifacts(o)[i] == RootUrls)
    ensures var g := ApplyAll(map[], StepsWith(o, texts));
      Location(Artifacts(o)[i], o.name) in g && g[Location(Artifacts(o)[i], o.name)] == File(texts[i])
  {
    var p := Location(Artifacts(o)[i], o.name);
    var steps := StepsWith(o, texts);
    var d := |DirList(o)|;
    ArtifactStepWrites(o, texts, i);
    forall j | d + i < j < |steps| ensures !Touches(steps[j], p) {
      LaterStepMisses(o, texts, i, j - d);
    }
    LastWriteWins(map[], steps, d + i, p, texts[i]);
  }

  lemma ArtifactStepWrites(o: Options, texts: seq<string>, i: nat)
    requires |texts| == |Artifacts(o)| && i < |Artifacts(o)|
    requires Artifacts(o)[i] != MigrationsDir
    ensures |StepsWith(o, texts)| == |DirList(o)| + |Artifacts(o)|
    ensures StepsWith(o, texts)[|DirList(o)| + i] == Write(Location(Artifacts(o)[i], o.name), texts[i])
  {
    StepAt(o, texts, i);
  }

  lemma LaterStepMisses(o: Options, texts: seq<string>, i: nat, j: nat)
    requires |texts| == |Artifacts(o)| && i < j < |Artifacts(o)|
    requires !(o.name == "main" && Artifacts(o)[i] == RootUrls)
    ensures !Touches(StepsWith(o, texts)[|DirList(o)| + j], Location(Artifacts(o)[i], o.name))
  {
    StepAt(o, texts, j);
    LaterStepsMissLocation(o, i, j);
  }

  /** Whatever the texts, every file at the end was written for some artifact: this one. */
  lemma FileSource(o: Options, texts: seq<string>, p: Path) returns (i: nat)
    requires |texts| == |Artifacts(o)|
    requires IsFile(ApplyAll(map[], StepsWith(o, texts)), p)
    ensures i < |Artifacts(o)| && Artifacts(o)[i] != MigrationsDir && Location(Artifacts(o)[i], o.name) == p
  {
    var steps := StepsWith(o, texts);
    var d := |DirList(o)|;
    FilesComeFromWrites(map[], steps, p);
    var k :| 0 <= k < |steps| && steps[k].Write? && steps[k].path == p;
    if k < d {
      assert false;
    }
    StepAt(o, texts, k - d);
    i := k - d;
  }

  /** A position of an artifact in a plan that holds it. */
  lemma Position(arts: seq<Artifact>, a: Artifact) returns (i: nat)
    requires a in arts
    ensures i < |arts| && arts[i] == a
  {
    i :| 0 <= i < |arts| && arts[i] == a;
  }

  lemma TextAt(arts: seq<Artifact>, o: Options, i: nat)
    requires i < |arts| && arts[i] != MigrationsDir
    ensures Texts(arts, o)[i] == Content(arts[i], o)
  {
  }

  lemma FileContentAt(o: Options, i: nat)
    requires i < |Artifacts(o)| && Artifacts(o)[i] != MigrationsDir
    requires !(o.name == "main" && Artifacts(o)[i] == RootUrls)
    ensures Location(Artifacts(o)[i], o.name) in Generated(o)
    ensures Generated(o)[Location(Artifacts(o)[i], o.name)] == File(Content(Artifacts(o)[i], o))
  {
    LastArtifactWins(o, Texts(Artifacts(o), o), i);
    TextAt(Artifacts(o), o, i);
  }

  /**
   * Each file holds the text rendered for it (the project `urls.py` of a
   * project named `main` excepted). `Generated(o)` is the run's tree when
   * the name does not collide.
   */
  lemma FileContent(o: Options, a: Artifact)
    requires a in Artifacts(o) && a != MigrationsDir
    requires !(o.name == "main" && a == RootUrls)
    ensures Location(a, o.name) in Generated(o)
    ensures Generated(o)[Location(a, o.name)] == File(Content(a, o))
  {
    var i := Position(Artifacts(o), a);
    FileContentAt(o, i);
  }

  /** Every file of the project was written for some artifact (in `Generated(o)`, the run's tree when the name does not collide). */
  lemma FileOrigin(o: Options, p: Path)
    requires IsFile(Generated(o), p)
    ensures exists a :: a in Artifacts(o) && a != MigrationsDir && Location(a, o.name) == p
  {
    var i := FileSource(o, Texts(Artifacts(o), o), p);
    assert Artifacts(o)[i] in Artifacts(o);
  }

  /** Whatever the texts, each produced file is present at the end. */
  lemma ProducedPresent(o: Options, texts: seq<string>, a: Artifact)
    requires |texts| == |Artifacts(o)|
    requires a in Artifacts(o) && a != MigrationsDir
    ensures IsFile(ApplyAll(map[], StepsWith(o, texts)), Location(a, o.name))
  {
    var i := Position(Artifacts(o), a);
    if o.name == "main" && a == RootUrls {
      MainUrlsCollide();
      assert Artifacts(o)[9] == AppUrls;
      LastArtifactWins(o, texts, 9);
    } else {
      LastArtifactWins(o, texts, i);
    }
  }

  /** Whatever the texts, a file at the location of an artifact means that artifact was produced. */
  lemma PresentProduced(o: Options, texts: seq<string>, a: Artifact)
    requires |texts| == |Artifacts(o)|
    requires a != MigrationsDir
    requires IsFile(ApplyAll(map[], StepsWith(o, texts)), Location(a, o.name))
    ensures a in Artifacts(o)
  {
    var i := FileSource(o, texts, Location(a, o.name));
    LocationInjective(Artifacts(o)[i], a, o.name);
    if a == RootUrls || a == AppUrls {
      UrlsProduced(o);
    } else {
      assert Artifacts(o)[i] == a;
    }
  }

  /** Both `urls.py` files belong to every plan. */
  lemma UrlsProduced(o: Options)
    ensures RootUrls in Artifacts(o) && AppUrls in Artifacts(o)
  {
    assert Artifacts(o)[4] == RootUrls;
    assert Artifacts(o)[9] == AppUrls;
  }

  /** A file is present exactly when its artifact is produced (in `Generated(o)`, the run's tree when the name does not collide). */
  lemma ArtifactWritten(o: Options, a: Artifact)
    requires a != MigrationsDir
    ensures IsFile(Generated(o), Location(a, o.name)) <==> a in Artifacts(o)
  {
    var texts := Texts(Artifacts(o), o);
    if a in Artifacts(o) {
      ProducedPresent(o, texts, a);
    }
    if IsFile(Generated(o), Location(a, o.name)) {
      PresentProduced(o, texts, a);
    }
  }

  /**
   * Which files a generated project holds: the baseline always, the
   * migrations package with the custom user model, the API package with
   * the API, and the Docker files with Docker. `Generated(o)` is the run's
   * tree when the name does not collide.
   */
  lemma PlannedFilesFollowFlags(o: Options, a: Artifact)
    requires a != MigrationsDir
    ensures IsFile(Generated(o), Location(a, o.name)) <==> Planned(o, a)
  {
    ArtifactWritten(o, a);
    ArtifactsFollowFlags(o, a);
  }

  /**
   * The migrations directory comes with the custom user model, the API
   * directory with the API. `ProjectDirs(o)` are the directories of the
   * run's tree when the name does not collide (`RunOutcome`).
   */
  lemma ProjectDirsFollowFlags(o: Options)
    ensures MigrationsPath in ProjectDirs(o) <==> o.user
    ensures ["main", "api"] in ProjectDirs(o) <==> o.api
    ensures forall q :: q in CreatedDirs(o) ==> q in ProjectDirs(o)
  {
    if MigrationsPath in CreatedDirs(o) {
      assert MigrationsPath[0] == "main";
    }
  }
}
