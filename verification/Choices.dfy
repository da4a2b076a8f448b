/**
 The choice model of the scaffolder: the three questions (framework,
 database, ORM), the fixed choice list of each, the ORM list that depends
 on the database answer, and the validity of a selection.
 */
module Choices {

  datatype Option<T> = None | Some(value: T)

  datatype Framework = Express | Fastify | NestJS
  datatype Database = NoDatabase | MongoDB | PostgreSQL | MySQL
  datatype Orm = NoOrm | Mongoose | Prisma | TypeORM | Sequelize | Knex

  /** The operator's answers to the three questions. */
  datatype Selection = Selection(framework: Framework, database: Database, orm: Orm)

  /** The identifier the prompt returns for each choice. */
  function FrameworkName(f: Framework): string {
    match f
    case Express => "express"
    case Fastify => "fastify"
    case NestJS => "nestjs"
  }

  function DatabaseName(d: Database): string {
    match d
    case NoDatabase => "none"
    case MongoDB => "mongodb"
    case PostgreSQL => "postgresql"
    case MySQL => "mysql"
  }

  function OrmName(o: Orm): string {
    match o
    case NoOrm => "none"
    case Mongoose => "mongoose"
    case Prisma => "prisma"
    case TypeORM => "typeorm"
    case Sequelize => "sequelize"
    case Knex => "knex"
  }

  /** The choices offered for the framework question, in prompt order. */
  function FrameworkChoices(): (r: seq<string>)
    ensures |r| == 3
    ensures forall f: Framework :: FrameworkName(f) in r
  {
    ["express", "fastify", "nestjs"]
  }

  /** The choices offered for the database question, in prompt order. */
  function DatabaseChoices(): (r: seq<string>)
    ensures |r| == 4
    ensures forall d: Database :: DatabaseName(d) in r
  {
    ["none", "mongodb", "postgresql", "mysql"]
  }

  /**
   The choices offered for the ORM question, computed from the database
   answer given just before: a MongoDB project can only use mongoose (and
   cannot decline an ORM); any other answer offers every ORM but mongoose.
   */
  function OrmChoices(database: string): (r: seq<string>)
    ensures r != []
    ensures "mongoose" in r <==> database == "mongodb"
    ensures "none" in r <==> database != "mongodb"
    ensures database == "mongodb" ==> |r| == 1
    ensures database != "mongodb" ==> |r| == 5 && r[0] == "none"
    ensures database != "mongodb" ==> forall o: Orm :: o != Mongoose ==> OrmName(o) in r
  {
    if database == "mongodb" then ["mongoose"]
    else ["none", "prisma", "typeorm", "sequelize", "knex"]
  }

  /** A selection the prompt can produce: every answer is among its offered choices. */
  predicate Valid(s: Selection) {
    && FrameworkName(s.framework) in FrameworkChoices()
    && DatabaseName(s.database) in DatabaseChoices()
    && OrmName(s.orm) in OrmChoices(DatabaseName(s.database))
  }

  /**
   Validity without the choice lists: the ORM is mongoose exactly when the
   database is MongoDB.
   */
  lemma ValidIff(s: Selection)
    ensures Valid(s) <==> (s.orm == Mongoose <==> s.database == MongoDB)
  {
    var ormName := OrmName(s.orm);
    var choices := OrmChoices(DatabaseName(s.database));
    if s.database == MongoDB {
      assert choices == ["mongoose"];
      assert ormName in choices <==> s.orm == Mongoose;
    } else {
      assert choices == ["none", "prisma", "typeorm", "sequelize", "knex"];
      assert ormName in choices <==> s.orm != Mongoose;
    }
  }

  /** Reading an answer back as a choice; an identifier not offered reads as None. */
  function ParseFramework(name: string): (r: Option<Framework>)
    ensures r.Some? <==> name in FrameworkChoices()
    ensures r.Some? ==> FrameworkName(r.value) == name
  {
    if name == "express" then Some(Express)
    else if name == "fastify" then Some(Fastify)
    else if name == "nestjs" then Some(NestJS)
    else None
  }

  function ParseDatabase(name: string): (r: Option<Database>)
    ensures r.Some? <==> name in DatabaseChoices()
    ensures r.Some? ==> DatabaseName(r.value) == name
  {
    if name == "none" then Some(NoDatabase)
    else if name == "mongodb" then Some(MongoDB)
    else if name == "postgresql" then Some(PostgreSQL)
    else if name == "mysql" then Some(MySQL)
    else None
  }

  function ParseOrm(name: string): (r: Option<Orm>)
    ensures r.Some? ==> OrmName(r.value) == name
    ensures r.None? ==> forall o: Orm :: OrmName(o) != name
  {
    if name == "none" then Some(NoOrm)
    else if name == "mongoose" then Some(Mongoose)
    else if name == "prisma" then Some(Prisma)
    else if name == "typeorm" then Some(TypeORM)
    else if name == "sequelize" then Some(Sequelize)
    else if name == "knex" then Some(Knex)
    else None
  }

  /**
   The selection a raw answer set stands for: defined exactly when each
   answer is one the prompt offers, the ORM answer judged against the list
   computed from the database answer.
   */
  function FromAnswers(framework: string, database: string, orm: string): (r: Option<Selection>)
    ensures r.Some? ==> Valid(r.value)
    ensures r.Some? ==>
              && FrameworkName(r.value.framework) == framework
              && DatabaseName(r.value.database) == database
              && OrmName(r.value.orm) == orm
    ensures r.None? <==> framework !in FrameworkChoices() || database !in DatabaseChoices()
                         || orm !in OrmChoices(database)
  {
    match (ParseFramework(framework), ParseDatabase(database), ParseOrm(orm))
    case (Some(f), Some(d), Some(o)) =>
      if orm in OrmChoices(database) then Some(Selection(f, d, o)) else None
    case _ =>
      assert orm in OrmChoices(database) ==> ParseOrm(orm).Some?;
      None
  }

  /** Every valid selection is what its own answers read back as. */
  lemma {:induction false} FromAnswersRoundTrip(s: Selection)
    requires Valid(s)
    ensures FromAnswers(FrameworkName(s.framework), DatabaseName(s.database), OrmName(s.orm)) == Some(s)
  {
    assert ParseFramework(FrameworkName(s.framework)) == Some(s.framework);
    assert ParseDatabase(DatabaseName(s.database)) == Some(s.database);
    assert ParseOrm(OrmName(s.orm)) == Some(s.orm);
  }
}
