/**
 The dependency resolver: the static package tables and the construction
 of the runtime and development package lists from a selection.
 */
module Resolver {
  import opened Choices

  /** Runtime packages contributed by each framework. */
  const FrameworkTable: map<Framework, seq<string>> := map[
    Express := ["express", "@types/express", "cors"],
    Fastify := ["fastify", "@fastify/cors"],
    NestJS := ["@nestjs/core", "@nestjs/common", "@nestjs/platform-express"]
  ]

  /** Runtime packages contributed by each database; "none" has no entry. */
  const DatabaseTable: map<Database, seq<string>> := map[
    MongoDB := ["mongodb"],
    PostgreSQL := ["pg"],
    MySQL := ["mysql2"]
  ]

  /** Runtime packages contributed by each ORM; "none" has no entry. */
  const OrmTable: map<Orm, seq<string>> := map[
    Mongoose := ["mongoose"],
    Prisma := ["prisma", "@prisma/client"],
    TypeORM := ["typeorm", "reflect-metadata"],
    Sequelize := ["sequelize", "sequelize-typescript"],
    Knex := ["knex"]
  ]

  /** Development packages contributed by each ORM; "none" and mongoose have no entry. */
  const OrmDevTable: map<Orm, seq<string>> := map[
    Prisma := ["ts-node", "ts-node-dev"],
    TypeORM := ["ts-node", "ts-node-dev"],
    Sequelize := ["ts-node", "ts-node-dev"],
    Knex := ["knex"]
  ]

  /** A table lookup in which a missing key reads as the empty list. */
  function Lookup<K>(table: map<K, seq<string>>, key: K): (r: seq<string>)
    ensures key in table ==> r == table[key]
    ensures key !in table ==> r == []
  {
    if key in table then table[key] else []
  }

  /** The one driver the sequelize rule appends: pg for PostgreSQL, mysql2 for anything else. */
  function SequelizeDriver(d: Database): (r: string)
    ensures r == "pg" <==> d == PostgreSQL
    ensures r == "pg" || r == "mysql2"
  {
    if d == PostgreSQL then "pg" else "mysql2"
  }

  /** The database's runtime packages, or nothing when no database was chosen. */
  function DatabasePart(s: Selection): seq<string> {
    if s.database != NoDatabase then Lookup(DatabaseTable, s.database) else []
  }

  /** The ORM's runtime packages, or nothing when no ORM was chosen. */
  function OrmPart(s: Selection): seq<string> {
    if s.orm != NoOrm then Lookup(OrmTable, s.orm) else []
  }

  /** The driver added for sequelize, or nothing for any other ORM. */
  function DriverPart(s: Selection): seq<string> {
    if s.orm == Sequelize then [SequelizeDriver(s.database)] else []
  }

  /** The runtime list: framework, then database, then ORM packages, then the sequelize driver. */
  function RuntimeOf(s: Selection): seq<string> {
    Lookup(FrameworkTable, s.framework) + DatabasePart(s) + OrmPart(s) + DriverPart(s)
  }

  /** The development list: the ORM's development packages, when an ORM was chosen. */
  function DevOf(s: Selection): seq<string> {
    if s.orm != NoOrm then Lookup(OrmDevTable, s.orm) else []
  }

  /**
   Builds both lists by successive appends, as the generator does, and
   yields exactly the specified lists.
   */
  method Resolve(s: Selection) returns (runtime: seq<string>, dev: seq<string>)
    ensures runtime == RuntimeOf(s)
    ensures dev == DevOf(s)
  {
    runtime, dev := [], [];
    runtime := runtime + Lookup(FrameworkTable, s.framework);
    assert runtime == Lookup(FrameworkTable, s.framework);
    if s.database != NoDatabase {
      runtime := runtime + Lookup(DatabaseTable, s.database);
    }
    assert runtime == Lookup(FrameworkTable, s.framework) + DatabasePart(s);
    if s.orm != NoOrm {
      runtime := runtime + Lookup(OrmTable, s.orm);
      dev := dev + Lookup(OrmDevTable, s.orm);
    }
    assert runtime == Lookup(FrameworkTable, s.framework) + DatabasePart(s) + OrmPart(s);
    if s.orm == Sequelize {
      runtime := runtime + [SequelizeDriver(s.database)];
    }
  }

  /** Number of occurrences of x in xs. */
  function Count(xs: seq<string>, x: string): (n: nat)
    ensures n <= |xs|
    ensures n == 0 <==> x !in xs
  {
    if xs == [] then 0
    else (if xs[0] == x then 1 else 0) + Count(xs[1..], x)
  }

  lemma {:induction false} CountAppend(xs: seq<string>, ys: seq<string>, x: string)
    ensures Count(xs + ys, x) == Count(xs, x) + Count(ys, x)
  {
    if xs == [] {
      assert xs + ys == ys;
    } else {
      assert (xs + ys)[1..] == xs[1..] + ys;
      CountAppend(xs[1..], ys, x);
    }
  }

  /** Every framework contributes at least two packages, so the runtime list is never empty. */
  lemma FrameworkFirst(s: Selection)
    ensures |Lookup(FrameworkTable, s.framework)| >= 2
    ensures RuntimeOf(s)[..|Lookup(FrameworkTable, s.framework)|] == Lookup(FrameworkTable, s.framework)
    ensures RuntimeOf(s) != []
  {
    var fw := Lookup(FrameworkTable, s.framework);
    match s.framework {
      case Express => assert |fw| == 3;
      case Fastify => assert |fw| == 2;
      case NestJS => assert |fw| == 3;
    }
    assert RuntimeOf(s) == fw + (DatabasePart(s) + OrmPart(s) + DriverPart(s));
  }

  /**
   The runtime list never drops or merges an entry: each package occurs as
   often as the framework, database (when chosen), ORM (when chosen) and the
   sequelize driver rule together contribute it.
   */
  lemma {:induction false} RuntimeCount(s: Selection, x: string)
    ensures Count(RuntimeOf(s), x)
         == Count(Lookup(FrameworkTable, s.framework), x)
          + (if s.database != NoDatabase then Count(Lookup(DatabaseTable, s.database), x) else 0)
          + (if s.orm != NoOrm then Count(Lookup(OrmTable, s.orm), x) else 0)
          + (if s.orm == Sequelize && x == SequelizeDriver(s.database) then 1 else 0)
  {
    var fw := Lookup(FrameworkTable, s.framework);
    CountAppend(fw, DatabasePart(s), x);
    CountAppend(fw + DatabasePart(s), OrmPart(s), x);
    CountAppend(fw + DatabasePart(s) + OrmPart(s), DriverPart(s), x);
    assert Count([], x) == 0;
    assert Count([SequelizeDriver(s.database)], x) == if x == SequelizeDriver(s.database) then 1 else 0 by {
      assert [SequelizeDriver(s.database)][1..] == [];
    }
  }

  /** The length of the runtime list is the sum of the contributions. */
  lemma RuntimeLength(s: Selection)
    ensures |RuntimeOf(s)|
         == |Lookup(FrameworkTable, s.framework)|
          + (if s.database != NoDatabase then |Lookup(DatabaseTable, s.database)| else 0)
          + (if s.orm != NoOrm then |Lookup(OrmTable, s.orm)| else 0)
          + (if s.orm == Sequelize then 1 else 0)
  {
  }

  /**
   With sequelize, the very last runtime entry is the driver: pg for
   PostgreSQL, mysql2 for every other database, including none.
   */
  lemma SequelizeDriverLast(s: Selection)
    requires s.orm == Sequelize
    ensures RuntimeOf(s) != []
    ensures RuntimeOf(s)[|RuntimeOf(s)| - 1] == (if s.database == PostgreSQL then "pg" else "mysql2")
  {
  }

  /** Without sequelize, neither driver is ever added beyond what the database itself contributes. */
  lemma {:induction false} NoDriverWithoutSequelize(s: Selection)
    requires s.orm != Sequelize
    ensures Count(RuntimeOf(s), "pg") == (if s.database == PostgreSQL then 1 else 0)
    ensures Count(RuntimeOf(s), "mysql2") == (if s.database == MySQL then 1 else 0)
  {
    RuntimeCount(s, "pg");
    RuntimeCount(s, "mysql2");
    FrameworkLacksDrivers(s.framework);
    OrmLacksDrivers(s.orm);
    DatabaseDriverCount(s.database);
  }

  /** With MySQL and sequelize the mysql2 driver is listed twice: nothing is deduplicated. */
  lemma {:induction false} MysqlSequelizeDuplicate(f: Framework)
    ensures Count(RuntimeOf(Selection(f, MySQL, Sequelize)), "mysql2") == 2
    ensures Count(RuntimeOf(Selection(f, PostgreSQL, Sequelize)), "pg") == 2
    ensures Count(RuntimeOf(Selection(f, NoDatabase, Sequelize)), "mysql2") == 1
  {
    FrameworkLacksDrivers(f);
    OrmLacksDrivers(Sequelize);
    DatabaseDriverCount(MySQL);
    DatabaseDriverCount(PostgreSQL);
    RuntimeCount(Selection(f, MySQL, Sequelize), "mysql2");
    RuntimeCount(Selection(f, PostgreSQL, Sequelize), "pg");
    RuntimeCount(Selection(f, NoDatabase, Sequelize), "mysql2");
  }

  lemma FrameworkLacksDrivers(f: Framework)
    ensures Count(Lookup(FrameworkTable, f), "pg") == 0
    ensures Count(Lookup(FrameworkTable, f), "mysql2") == 0
  {
    var pkgs := Lookup(FrameworkTable, f);
    match f {
      case Express => assert pkgs == ["express", "@types/express", "cors"];
      case Fastify => assert pkgs == ["fastify", "@fastify/cors"];
      case NestJS => assert pkgs == ["@nestjs/core", "@nestjs/common", "@nestjs/platform-express"];
    }
    assert "pg" !in pkgs && "mysql2" !in pkgs;
  }

  lemma OrmLacksDrivers(o: Orm)
    ensures Count(Lookup(OrmTable, o), "pg") == 0
    ensures Count(Lookup(OrmTable, o), "mysql2") == 0
  {
    var pkgs := Lookup(OrmTable, o);
    match o {
      case NoOrm => assert pkgs == [];
      case Mongoose => assert pkgs == ["mongoose"];
      case Prisma => assert pkgs == ["prisma", "@prisma/client"];
      case TypeORM => assert pkgs == ["typeorm", "reflect-metadata"];
      case Sequelize => assert pkgs == ["sequelize", "sequelize-typescript"];
      case Knex => assert pkgs == ["knex"];
    }
    assert "pg" !in pkgs && "mysql2" !in pkgs;
  }

  lemma DatabaseDriverCount(d: Database)
    ensures Count(Lookup(DatabaseTable, d), "pg") == (if d == PostgreSQL then 1 else 0)
    ensures Count(Lookup(DatabaseTable, d), "mysql2") == (if d == MySQL then 1 else 0)
  {
    if d == PostgreSQL {
      assert Count(["pg"], "pg") == 1 + Count([], "pg");
    } else if d == MySQL {
      assert Count(["mysql2"], "mysql2") == 1 + Count([], "mysql2");
    }
  }

  /** With knex, "knex" is both a runtime and a development package. */
  lemma KnexInBothLists(s: Selection)
    requires s.orm == Knex
    ensures "knex" in RuntimeOf(s)
    ensures DevOf(s) == ["knex"]
  {
    assert RuntimeOf(s) == Lookup(FrameworkTable, s.framework) + DatabasePart(s) + ["knex"];
  }

  /**
   The development list is empty exactly when no ORM or mongoose was chosen
   (mongoose has no development entry); otherwise it is that ORM's entry.
   */
  lemma DevEmptyIff(s: Selection)
    ensures DevOf(s) == [] <==> s.orm == NoOrm || s.orm == Mongoose
    ensures s.orm != NoOrm && s.orm != Mongoose ==> s.orm in OrmDevTable && DevOf(s) == OrmDevTable[s.orm]
    ensures s.orm == Prisma || s.orm == TypeORM || s.orm == Sequelize ==> DevOf(s) == ["ts-node", "ts-node-dev"]
  {
  }
}
