/**
 * The Docker files (`_dockerfile`, `_docker_compose`, `_dockerignore`). The
 * compose file always has the web service; a database server adds a `db`
 * service and its named volume, with the same credentials and port that
 * the settings' `DATABASES` block uses.
 */
module Docker {
  import opened Configuration
  import opened Text
  import opened Settings

  const DockerfileText := @"FROM python:3.11-slim
WORKDIR /app
COPY requirements.txt .
RUN pip install --no-cache-dir -r requirements.txt
COPY . .
RUN python manage.py collectstatic --noinput
EXPOSE 8000
CMD [""python"", ""manage.py"", ""runserver"", ""0.0.0.0:8000""]
"

  const DockerignoreText := @".git
.gitignore
README.md
.env
.venv
venv/
__pycache__
*.pyc
.pytest_cache
htmlcov/
.coverage
"

  const ComposeHead := "version: '3.8'\n" + "services:\n" + "  web:\n" + "    build: .\n" + "    ports:\n"
    + "      - \"8000:8000\"\n" + "    volumes:\n" + "      - .:/app\n" + "    environment:\n" + "      - DEBUG=1"

  /** The image the `db` service runs. */
  function Image(db: Database): string
    requires db != Sqlite
  {
    if db == Postgresql then "postgres:15" else "mysql:8.0"
  }

  /** The named volume that keeps the server's data. */
  function VolumeName(db: Database): string
    requires db != Sqlite
  {
    if db == Postgresql then "postgres_data" else "mysql_data"
  }

  function DataDir(db: Database): string
    requires db != Sqlite
  {
    if db == Postgresql then "/var/lib/postgresql/data" else "/var/lib/mysql"
  }

  /** The environment variables the server image reads for its database, user and password. */
  function DatabaseVar(db: Database): string
    requires db != Sqlite
  {
    if db == Postgresql then "POSTGRES_DB" else "MYSQL_DATABASE"
  }

  function UserVar(db: Database): string
    requires db != Sqlite
  {
    if db == Postgresql then "POSTGRES_USER" else "MYSQL_USER"
  }

  function PasswordVar(db: Database): string
    requires db != Sqlite
  {
    if db == Postgresql then "POSTGRES_PASSWORD" else "MYSQL_PASSWORD"
  }

  function EnvVar(key: string, value: string): string
  {
    "      " + key + ": " + value + "\n"
  }

  /** The service's environment; MySQL also gets its root password, equal to the user's. */
  function Environment(db: Database): string
    requires db != Sqlite
  {
    var c := ServerConnection(db);
    EnvVar(DatabaseVar(db), c.database) + EnvVar(UserVar(db), c.user) + EnvVar(PasswordVar(db), c.password)
    + (if db == Mysql then EnvVar("MYSQL_ROOT_PASSWORD", c.password) else "")
  }

  function VolumeMount(db: Database): string
    requires db != Sqlite
  {
    "      - " + VolumeName(db) + ":" + DataDir(db) + "\n"
  }

  /** The port published on the host, the same number inside and out. */
  function PortMapping(port: string): string
  {
    "      - \"" + port + ":" + port + "\"\n"
  }

  /** The `db` service, present for a database server only. */
  function DbService(db: Database): string
  {
    if db == Sqlite then ""
    else
      "\n  db:\n    image: " + Image(db) + "\n    environment:\n" + Environment(db)
      + "    volumes:\n" + VolumeMount(db) + "    ports:\n" + PortMapping(ServerConnection(db).port)
  }

  /** The top-level `volumes` section declaring the service's volume. */
  function Volumes(db: Database): string
  {
    if db == Sqlite then "" else "\nvolumes:\n  " + VolumeName(db) + ":"
  }

  /** `docker-compose.yml` */
  function ComposeText(db: Database): string
  {
    ComposeHead + DbService(db) + "\n" + Volumes(db)
  }

  /** The service text sits inside the compose file. */
  lemma ComposeHoldsService(db: Database)
    ensures Contains(ComposeText(db), DbService(db))
  {
    var text := ComposeText(db);
    ContainsSelf(text);
    ContainsHalves(text, ComposeHead + DbService(db) + "\n", Volumes(db));
    ContainsHalves(text, ComposeHead + DbService(db), "\n");
    ContainsHalves(text, ComposeHead, DbService(db));
  }

  /** A character missing from every line of the opening of the compose file is missing from it. */
  lemma ComposeHeadLacks(c: char)
    requires c !in "version: '3.8'\n" && c !in "services:\n" && c !in "  web:\n" && c !in "    build: .\n" && c !in "    ports:\n"
    requires c !in "      - \"8000:8000\"\n" && c !in "    volumes:\n" && c !in "      - .:/app\n" && c !in "    environment:\n" && c !in "      - DEBUG=1"
    ensures c !in ComposeHead
  {
    NotInEither(c, "version: '3.8'\n", "services:\n");
    NotInEither(c, "version: '3.8'\n" + "services:\n", "  web:\n");
    NotInEither(c, "version: '3.8'\n" + "services:\n" + "  web:\n", "    build: .\n");
    NotInEither(c, "version: '3.8'\n" + "services:\n" + "  web:\n" + "    build: .\n", "    ports:\n");
    NotInEither(c, "version: '3.8'\n" + "services:\n" + "  web:\n" + "    build: .\n" + "    ports:\n", "      - \"8000:8000\"\n");
    NotInEither(c, "version: '3.8'\n" + "services:\n" + "  web:\n" + "    build: .\n" + "    ports:\n" + "      - \"8000:8000\"\n", "    volumes:\n");
    NotInEither(c, "version: '3.8'\n" + "services:\n" + "  web:\n" + "    build: .\n" + "    ports:\n" + "      - \"8000:8000\"\n" + "    volumes:\n", "      - .:/app\n");
    NotInEither(c, "version: '3.8'\n" + "services:\n" + "  web:\n" + "    build: .\n" + "    ports:\n" + "      - \"8000:8000\"\n" + "    volumes:\n" + "      - .:/app\n", "    environment:\n");
    NotInEither(c, "version: '3.8'\n" + "services:\n" + "  web:\n" + "    build: .\n" + "    ports:\n" + "      - \"8000:8000\"\n" + "    volumes:\n" + "      - .:/app\n" + "    environment:\n", "      - DEBUG=1");
  }

  lemma ComposeHeadLacksG()
    ensures 'g' !in ComposeHead
  {
    ComposeHeadLacks('g');
  }

  lemma ComposeHeadLacksY()
    ensures 'y' !in ComposeHead
  {
    ComposeHeadLacks('y');
  }

  lemma ComposeHeadLacksFive()
    ensures '5' !in ComposeHead
  {
    ComposeHeadLacks('5');
  }

  lemma PostgresEnvironmentLacksY()
    ensures 'y' !in Environment(Postgresql)
  {
    NotInEither('y', EnvVar("POSTGRES_DB", "postgres"), EnvVar("POSTGRES_USER", "postgres"));
  }

  /** A character absent from every piece of the `db` service is absent from the service. */
  lemma ServiceLacks(db: Database, c: char)
    requires db != Sqlite
    requires c !in "\n  db:\n    image: " && c !in "\n    environment:\n" && c !in "    volumes:\n" && c !in "    ports:\n"
    requires c !in Image(db) && c !in Environment(db) && c !in VolumeMount(db)
    requires c !in PortMapping(ServerConnection(db).port)
    ensures c !in DbService(db)
  {
    var s1 := "\n  db:\n    image: " + Image(db);
    NotInEither(c, "\n  db:\n    image: ", Image(db));
    NotInEither(c, s1, "\n    environment:\n");
    var s2 := s1 + "\n    environment:\n" + Environment(db);
    NotInEither(c, s1 + "\n    environment:\n", Environment(db));
    NotInEither(c, s2, "    volumes:\n");
    var s3 := s2 + "    volumes:\n" + VolumeMount(db);
    NotInEither(c, s2 + "    volumes:\n", VolumeMount(db));
    NotInEither(c, s3, "    ports:\n");
    NotInEither(c, s3 + "    ports:\n", PortMapping(ServerConnection(db).port));
  }

  lemma PostgresServiceLacksY()
    ensures 'y' !in DbService(Postgresql)
  {
    PostgresEnvironmentLacksY();
    ServiceLacks(Postgresql, 'y');
  }

  lemma PostgresComposeLacksY()
    ensures 'y' !in ComposeText(Postgresql)
  {
    ComposeHeadLacksY();
    PostgresServiceLacksY();
    NotInEither('y', ComposeHead, DbService(Postgresql));
  }

  lemma MysqlEnvironmentLacksFive()
    ensures '5' !in Environment(Mysql)
  {
    NotInEither('5', EnvVar("MYSQL_DATABASE", "mysql"), EnvVar("MYSQL_USER", "root"));
  }

  lemma MysqlServiceLacksFive()
    ensures '5' !in DbService(Mysql)
  {
    MysqlEnvironmentLacksFive();
    ServiceLacks(Mysql, '5');
  }

  lemma MysqlComposeLacksFive()
    ensures '5' !in ComposeText(Mysql)
  {
    ComposeHeadLacksFive();
    MysqlServiceLacksFive();
    NotInEither('5', ComposeHead, DbService(Mysql));
  }

  /** With SQLite the compose file runs no image of its own. */
  lemma SqliteComposeRunsNoImage()
    ensures !Contains(ComposeText(Sqlite), "image: ")
    ensures !Contains(ComposeText(Sqlite), Image(Postgresql)) && !Contains(ComposeText(Sqlite), Image(Mysql))
  {
    var text := ComposeText(Sqlite);
    ComposeServices(Sqlite);
    ComposeHeadLacksG();
    ComposeHeadLacksY();
    NotInEither('g', ComposeHead, "\n");
    NotInEither('y', ComposeHead, "\n");
    MissingCharNotContained(text, "image: ", 3);
    MissingCharNotContained(text, Image(Postgresql), 4);
    MissingCharNotContained(text, Image(Mysql), 1);
  }

  lemma ServiceLineNamesImage()
    ensures Contains("\n  db:\n    image: ", "image: ")
  {
    assert OccursAt("\n  db:\n    image: ", "image: ", 11);
  }

  /** With a server the compose file runs that server's image. */
  lemma ServerComposeRunsImage(db: Database)
    requires db != Sqlite
    ensures Contains(ComposeText(db), "image: ") && Contains(ComposeText(db), Image(db))
  {
    var text := ComposeText(db);
    var line := "\n  db:\n    image: ";
    ComposeServices(db);
    ContainsHalves(text, line, Image(db));
    ServiceLineNamesImage();
    ContainsTransitive(text, line, "image: ");
  }

  lemma PostgresComposeOmitsMysql()
    ensures !Contains(ComposeText(Postgresql), Image(Mysql))
  {
    PostgresComposeLacksY();
    MissingCharNotContained(ComposeText(Postgresql), Image(Mysql), 1);
  }

  lemma MysqlComposeOmitsPostgres()
    ensures !Contains(ComposeText(Mysql), Image(Postgresql))
  {
    MysqlComposeLacksFive();
    MissingCharNotContained(ComposeText(Mysql), Image(Postgresql), 10);
  }

  /**
   * The compose file runs an image of its own exactly when a database
   * server is chosen, and then the image of that server and of no other.
   */
  lemma ComposeNamesServer(db: Database)
    ensures Contains(ComposeText(db), "image: ") <==> db != Sqlite
    ensures forall s :: s != Sqlite ==> (Contains(ComposeText(db), Image(s)) <==> s == db)
  {
    if db == Sqlite {
      SqliteComposeRunsNoImage();
    } else if db == Postgresql {
      ServerComposeRunsImage(db);
      PostgresComposeOmitsMysql();
    } else {
      ServerComposeRunsImage(db);
      MysqlComposeOmitsPostgres();
    }
  }

  /**
   * With SQLite the compose file holds the web service only; with a server
   * it adds the `db` service on the server's image, and the volume that
   * service mounts is the one the file declares at its end.
   */
  lemma ComposeServices(db: Database)
    ensures db == Sqlite ==> ComposeText(db) == ComposeHead + "\n"
    ensures db != Sqlite ==>
      && Contains(ComposeText(db), "\n  db:\n    image: " + Image(db))
      && Contains(ComposeText(db), VolumeMount(db))
      && IsSuffix("\nvolumes:\n  " + VolumeName(db) + ":", ComposeText(db))
  {
    if db != Sqlite {
      var text := ComposeText(db);
      var head := "\n  db:\n    image: " + Image(db);
      var env := head + "\n    environment:\n" + Environment(db);
      var mount := env + "    volumes:\n" + VolumeMount(db);
      ComposeHoldsService(db);
      ContainsHalves(text, mount + "    ports:\n", PortMapping(ServerConnection(db).port));
      ContainsHalves(text, mount, "    ports:\n");
      ContainsHalves(text, env + "    volumes:\n", VolumeMount(db));
      ContainsHalves(text, env, "    volumes:\n");
      ContainsHalves(text, head + "\n    environment:\n", Environment(db));
      ContainsHalves(text, head, "\n    environment:\n");
    }
  }

  /**
   * The compose service and the settings' `DATABASES` block agree: the same
   * database name, user, password and port.
   */
  lemma ComposeMatchesSettings(db: Database)
    requires db != Sqlite
    ensures var c := ServerConnection(db);
      var compose := ComposeText(db);
      var block := DatabaseBlock(db);
      && Contains(compose, EnvVar(DatabaseVar(db), c.database)) && Contains(block, DbEntry("NAME", c.database))
      && Contains(compose, EnvVar(UserVar(db), c.user)) && Contains(block, DbEntry("USER", c.user))
      && Contains(compose, EnvVar(PasswordVar(db), c.password)) && Contains(block, DbEntry("PASSWORD", c.password))
      && Contains(compose, PortMapping(c.port)) && Contains(block, DbEntry("PORT", c.port))
  {
    var c := ServerConnection(db);
    var text := ComposeText(db);
    var head := "\n  db:\n    image: " + Image(db);
    var env := head + "\n    environment:\n" + Environment(db);
    var mount := env + "    volumes:\n" + VolumeMount(db);
    ComposeHoldsService(db);
    ContainsHalves(text, mount + "    ports:\n", PortMapping(c.port));
    ContainsHalves(text, mount, "    ports:\n");
    ContainsHalves(text, env + "    volumes:\n", VolumeMount(db));
    ContainsHalves(text, env, "    volumes:\n");
    ContainsHalves(text, head + "\n    environment:\n", Environment(db));
    var three := EnvVar(DatabaseVar(db), c.database) + EnvVar(UserVar(db), c.user) + EnvVar(PasswordVar(db), c.password);
    ContainsHalves(text, three, if db == Mysql then EnvVar("MYSQL_ROOT_PASSWORD", c.password) else "");
    ContainsHalves(text, EnvVar(DatabaseVar(db), c.database) + EnvVar(UserVar(db), c.user), EnvVar(PasswordVar(db), c.password));
    ContainsHalves(text, EnvVar(DatabaseVar(db), c.database), EnvVar(UserVar(db), c.user));
    ServerBlockEntries(db);
  }
}
