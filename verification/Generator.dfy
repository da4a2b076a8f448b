/**
 Project generation: resolve the package lists, plan the files, then decide
 the package-manager invocations. The invocations are returned as data; the
 file instructions are applied before any of them.
 */
module Generator {
  import opened Choices
  import opened Resolver
  import opened Planner

  /** One `yarn add` invocation: runtime packages, or development packages with --dev. */
  datatype Install = YarnAdd(dev: bool, packages: seq<string>)

  /** The packages separated by single spaces. */
  function Join(packages: seq<string>): string {
    if packages == [] then ""
    else if |packages| == 1 then packages[0]
    else packages[0] + " " + Join(packages[1..])
  }

  /** No package name contains a space, so a space-separated line keeps them apart. */
  predicate SpaceFree(packages: seq<string>) {
    forall k :: 0 <= k < |packages| ==> ' ' !in packages[k]
  }

  /** Position of the first space in a line that has one. */
  function FirstSpace(line: string): (i: nat)
    requires ' ' in line
    ensures i < |line| && line[i] == ' '
    ensures forall j :: 0 <= j < i ==> line[j] != ' '
  {
    if line[0] == ' ' then 0 else 1 + FirstSpace(line[1..])
  }

  /** The words of a line, cut at every single space. */
  function Split(line: string): (r: seq<string>)
    ensures r != []
    decreases |line|
  {
    if ' ' !in line then [line]
    else
      var i := FirstSpace(line);
      [line[..i]] + Split(line[i + 1..])
  }

  /** In a name followed by a space, the first space is the one right after the name. */
  lemma FirstSpaceAfter(head: string, rest: string)
    requires ' ' !in head
    ensures ' ' in head + " " + rest
    ensures FirstSpace(head + " " + rest) == |head|
  {
    var line := head + " " + rest;
    assert line[|head|] == ' ';
    var i := FirstSpace(line);
    assert forall j :: 0 <= j < |head| ==> line[j] == head[j];
  }

  /** Joining space-free names and cutting the line at spaces gives the names back. */
  lemma {:induction false} SplitJoin(packages: seq<string>)
    requires packages != [] && SpaceFree(packages)
    ensures Split(Join(packages)) == packages
  {
    if |packages| == 1 {
      assert ' ' !in packages[0];
    } else {
      var head, rest := packages[0], Join(packages[1..]);
      var line := head + " " + rest;
      assert Join(packages) == line;
      assert ' ' !in head;
      FirstSpaceAfter(head, rest);
      assert line[..|head|] == head;
      assert line[|head| + 1..] == rest;
      assert Split(line) == [head] + Split(rest);
      assert SpaceFree(packages[1..]) by {
        forall k | 0 <= k < |packages[1..]| ensures ' ' !in packages[1..][k] {
          assert packages[1..][k] == packages[k + 1];
        }
      }
      SplitJoin(packages[1..]);
      assert packages == [head] + packages[1..];
    }
  }

  /** The fixed head of an install command line. */
  function AddCommand(dev: bool): string {
    if dev then "yarn add --dev " else "yarn add "
  }

  /**
   The command line an invocation runs: the add command, --dev for development
   packages, and then the packages, which read back from the rest of the line.
   */
  function CommandLine(i: Install): (r: string)
    ensures |r| >= |AddCommand(i.dev)| && r[..|AddCommand(i.dev)|] == AddCommand(i.dev)
    ensures r[..9] == "yarn add "
    ensures i.packages != [] && SpaceFree(i.packages) ==> Split(r[|AddCommand(i.dev)|..]) == i.packages
  {
    var line := AddCommand(i.dev) + Join(i.packages);
    assert line[|AddCommand(i.dev)|..] == Join(i.packages);
    if i.packages != [] && SpaceFree(i.packages) then
      SplitJoin(i.packages);
      line
    else
      line
  }

  /**
   The invocations for the two lists: one for the runtime list when it is
   non-empty, then one for the development list when it is non-empty.
   */
  function Installs(runtime: seq<string>, dev: seq<string>): (r: seq<Install>)
    ensures YarnAdd(false, runtime) in r <==> runtime != []
    ensures YarnAdd(true, dev) in r <==> dev != []
    ensures |r| == (if runtime != [] then 1 else 0) + (if dev != [] then 1 else 0)
    ensures forall i :: 0 <= i < |r| ==> r[i].packages != []
    ensures runtime != [] ==> r[0] == YarnAdd(false, runtime)
  {
    (if runtime != [] then [YarnAdd(false, runtime)] else [])
    + (if dev != [] then [YarnAdd(true, dev)] else [])
  }

  /**
   Generates a project for a selection: the file instructions in the order
   they are applied, then the package-manager invocations.
   */
  method GenerateProject(s: Selection) returns (files: seq<Instruction>, installs: seq<Install>)
    ensures files == ArtifactPlan(s)
    ensures installs == Installs(RuntimeOf(s), DevOf(s))
  {
    var runtime, dev := Resolve(s);
    files := Plan(s);
    installs := Installs(runtime, dev);
  }

  /**
   Every generation installs its runtime list first (it is never empty), and
   installs development packages exactly when an ORM other than mongoose was
   chosen.
   */
  lemma {:induction false} InstallsOf(s: Selection)
    ensures |Installs(RuntimeOf(s), DevOf(s))| >= 1
    ensures Installs(RuntimeOf(s), DevOf(s))[0] == YarnAdd(false, RuntimeOf(s))
    ensures |Installs(RuntimeOf(s), DevOf(s))| == 2 <==> s.orm != NoOrm && s.orm != Mongoose
  {
    FrameworkFirst(s);
    DevEmptyIff(s);
  }

  lemma SpaceFreeAppend(a: seq<string>, b: seq<string>)
    requires SpaceFree(a) && SpaceFree(b)
    ensures SpaceFree(a + b)
  {
    forall k | 0 <= k < |a + b| ensures ' ' !in (a + b)[k] {
      if k >= |a| { assert (a + b)[k] == b[k - |a|]; }
    }
  }

  lemma FrameworkSpaceFree(f: Framework)
    ensures SpaceFree(Lookup(FrameworkTable, f))
  {
    match f {
      case Express => assert Lookup(FrameworkTable, f) == ["express", "@types/express", "cors"];
      case Fastify => assert Lookup(FrameworkTable, f) == ["fastify", "@fastify/cors"];
      case NestJS => assert Lookup(FrameworkTable, f) == ["@nestjs/core", "@nestjs/common", "@nestjs/platform-express"];
    }
  }

  lemma DatabaseSpaceFree(s: Selection)
    ensures SpaceFree(DatabasePart(s))
  {
    match s.database {
      case NoDatabase =>
      case MongoDB => assert DatabasePart(s) == ["mongodb"];
      case PostgreSQL => assert DatabasePart(s) == ["pg"];
      case MySQL => assert DatabasePart(s) == ["mysql2"];
    }
  }

  lemma OrmSpaceFree(s: Selection)
    ensures SpaceFree(OrmPart(s))
  {
    match s.orm {
      case NoOrm =>
      case Mongoose => assert OrmPart(s) == ["mongoose"];
      case Prisma => assert OrmPart(s) == ["prisma", "@prisma/client"];
      case TypeORM => assert OrmPart(s) == ["typeorm", "reflect-metadata"];
      case Sequelize => assert OrmPart(s) == ["sequelize", "sequelize-typescript"];
      case Knex => assert OrmPart(s) == ["knex"];
    }
  }

  lemma DevSpaceFree(s: Selection)
    ensures SpaceFree(DevOf(s))
  {
    if s.orm == Knex {
      assert DevOf(s) == ["knex"];
    } else if s.orm != NoOrm && s.orm != Mongoose {
      assert DevOf(s) == ["ts-node", "ts-node-dev"];
    }
  }

  /** No table entry contains a space, so neither resolved list does. */
  lemma {:induction false} ResolvedSpaceFree(s: Selection)
    ensures SpaceFree(RuntimeOf(s)) && SpaceFree(DevOf(s))
  {
    var fw := Lookup(FrameworkTable, s.framework);
    FrameworkSpaceFree(s.framework);
    DatabaseSpaceFree(s);
    OrmSpaceFree(s);
    DevSpaceFree(s);
    assert SpaceFree(DriverPart(s));
    SpaceFreeAppend(fw, DatabasePart(s));
    SpaceFreeAppend(fw + DatabasePart(s), OrmPart(s));
    SpaceFreeAppend(fw + DatabasePart(s) + OrmPart(s), DriverPart(s));
  }

  /** Each install command of a generation reads back as exactly the list it installs. */
  lemma {:induction false} CommandsEncodeLists(s: Selection)
    ensures forall k :: 0 <= k < |Installs(RuntimeOf(s), DevOf(s))| ==>
              var inst := Installs(RuntimeOf(s), DevOf(s))[k];
              Split(CommandLine(inst)[|AddCommand(inst.dev)|..]) == inst.packages
  {
    ResolvedSpaceFree(s);
    var installs := Installs(RuntimeOf(s), DevOf(s));
    forall k | 0 <= k < |installs|
      ensures Split(CommandLine(installs[k])[|AddCommand(installs[k].dev)|..]) == installs[k].packages
    {
      assert installs[k] == YarnAdd(false, RuntimeOf(s)) || installs[k] == YarnAdd(true, DevOf(s));
    }
  }

  /** Express without database or ORM: three runtime packages, no development packages, only the environment file. */
  lemma ScenarioExpressBare()
    ensures RuntimeOf(Selection(Express, NoDatabase, NoOrm)) == ["express", "@types/express", "cors"]
    ensures DevOf(Selection(Express, NoDatabase, NoOrm)) == []
    ensures ArtifactPlan(Selection(Express, NoDatabase, NoOrm)) == [Write([".env"], "DATABASE_URL="), Mkdir(["src"])]
  {
  }

  /** Fastify with MongoDB and mongoose: the connection module is written under src/config. */
  lemma ScenarioFastifyMongo()
    ensures RuntimeOf(Selection(Fastify, MongoDB, Mongoose)) == ["fastify", "@fastify/cors", "mongodb", "mongoose"]
    ensures DevOf(Selection(Fastify, MongoDB, Mongoose)) == []
    ensures ArtifactPlan(Selection(Fastify, MongoDB, Mongoose))
         == [Write([".env"], "DATABASE_URL="), Mkdir(["src"]), Mkdir(["src", "config"]),
             Write(["src", "config", "database.ts"], MongooseModule)]
  {
  }

  /** NestJS with PostgreSQL and prisma: the schema's provider is "postgresql". */
  lemma {:induction false} ScenarioNestPrisma()
    ensures RuntimeOf(Selection(NestJS, PostgreSQL, Prisma))
         == ["@nestjs/core", "@nestjs/common", "@nestjs/platform-express", "pg", "prisma", "@prisma/client"]
    ensures DevOf(Selection(NestJS, PostgreSQL, Prisma)) == ["ts-node", "ts-node-dev"]
    ensures ArtifactPlan(Selection(NestJS, PostgreSQL, Prisma))[4] == Write(["prisma", "schema.prisma"], PrismaSchema("postgresql"))
    ensures ProviderOf(ArtifactPlan(Selection(NestJS, PostgreSQL, Prisma))[4].content) == Some("postgresql")
  {
    ProviderRoundTrip("postgresql");
  }

  /** Express with MySQL and sequelize: mysql2 is listed twice, once from the database and once as the driver. */
  lemma ScenarioExpressSequelize()
    ensures RuntimeOf(Selection(Express, MySQL, Sequelize))
         == ["express", "@types/express", "cors", "mysql2", "sequelize", "sequelize-typescript", "mysql2"]
  {
    var s := Selection(Express, MySQL, Sequelize);
    assert DatabasePart(s) == ["mysql2"];
    assert DriverPart(s) == ["mysql2"];
  }
}
