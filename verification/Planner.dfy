/**
 The artifact planner: the directories the generator creates and the files
 it writes, in order, returned as data instead of performed. A path is the
 list of segments joined under the project directory.
 */
module Planner {
  import opened Choices

  type Path = seq<string>

  datatype Instruction =
    | Mkdir(path: Path)
    | Write(path: Path, content: string)

  const EnvPath: Path := [".env"]
  const EnvContent: string := "DATABASE_URL="
  const SrcDir: Path := ["src"]
  const ConfigDir: Path := ["src", "config"]
  const DatabaseModulePath: Path := ["src", "config", "database.ts"]
  const PrismaDir: Path := ["prisma"]
  const SchemaPath: Path := ["prisma", "schema.prisma"]

  /** The mongoose connection module written for a MongoDB project. */
  const MongooseModule: string :=
    "import mongoose from 'mongoose';\n"
    + "\n"
    + "const connectDB = async () => {\n"
    + "  try {\n"
    + "    await mongoose.connect(process.env.DATABASE_URL);\n"
    + "    console.log('MongoDB conectado...');\n"
    + "  } catch (err) {\n"
    + "    console.error(err.message);\n"
    + "    process.exit(1);\n"
    + "  }\n"
    + "};\n"
    + "\n"
    + "export default connectDB;"

  /** The fixed text before and after the provider in the prisma schema. */
  const SchemaHead: string := "datasource db {\n  provider = \""
  const SchemaTail: string :=
    "\"\n  url      = env(\"DATABASE_URL\")\n}\ngenerator client {\n  provider = \"prisma-client-js\"\n}"

  /**
   The prisma schema: a datasource whose provider is the given identifier
   and whose URL comes from DATABASE_URL, and the JS client generator.
   */
  function PrismaSchema(provider: string): (r: string)
    ensures |r| == |SchemaHead| + |provider| + |SchemaTail|
    ensures r[..|SchemaHead|] == SchemaHead
    ensures r[|r| - |SchemaTail|..] == SchemaTail
  {
    SchemaHead + provider + SchemaTail
  }

  /** The datasource provider of a schema of the generated shape, if it has that shape. */
  function ProviderOf(schema: string): (r: Option<string>)
    ensures r.Some? ==> PrismaSchema(r.value) == schema
  {
    if |schema| >= |SchemaHead| + |SchemaTail|
       && schema[..|SchemaHead|] == SchemaHead
       && schema[|schema| - |SchemaTail|..] == SchemaTail
    then
      var provider := schema[|SchemaHead|..|schema| - |SchemaTail|];
      assert schema == schema[..|SchemaHead|] + provider + schema[|schema| - |SchemaTail|..];
      Some(provider)
    else None
  }

  /** The provider spliced into a schema is read back unchanged. */
  lemma {:induction false} ProviderRoundTrip(provider: string)
    ensures ProviderOf(PrismaSchema(provider)) == Some(provider)
  {
    var schema := PrismaSchema(provider);
    assert schema[|SchemaHead|..|schema| - |SchemaTail|] == provider;
  }

  /** The instructions for the configuration directory and the mongoose module. */
  function ConfigSteps(s: Selection): seq<Instruction> {
    if s.database != NoDatabase then
      [Mkdir(ConfigDir)] + (if s.orm == Mongoose then [Write(DatabaseModulePath, MongooseModule)] else [])
    else []
  }

  /** The instructions for the prisma directory and schema. */
  function PrismaSteps(s: Selection): seq<Instruction> {
    if s.orm == Prisma then [Mkdir(PrismaDir), Write(SchemaPath, PrismaSchema(DatabaseName(s.database)))]
    else []
  }

  /** The plan: environment file, source root, configuration block, prisma block. */
  function ArtifactPlan(s: Selection): (plan: seq<Instruction>)
    ensures 2 <= |plan| <= 5
  {
    [Write(EnvPath, EnvContent), Mkdir(SrcDir)] + ConfigSteps(s) + PrismaSteps(s)
  }

  /** Emits the instructions one by one, as the generator performs them. */
  method Plan(s: Selection) returns (plan: seq<Instruction>)
    ensures plan == ArtifactPlan(s)
  {
    plan := [];
    plan := plan + [Write(EnvPath, EnvContent)];
    plan := plan + [Mkdir(SrcDir)];
    if s.database != NoDatabase {
      plan := plan + [Mkdir(ConfigDir)];
      if s.orm == Mongoose {
        plan := plan + [Write(DatabaseModulePath, MongooseModule)];
      }
    }
    if s.orm == Prisma {
      plan := plan + [Mkdir(PrismaDir)];
      plan := plan + [Write(SchemaPath, PrismaSchema(DatabaseName(s.database)))];
    }
  }

  /** Every plan starts by writing the empty DATABASE_URL declaration, then creates src; no other step touches .env. */
  lemma EnvFirstAndOnce(s: Selection)
    ensures ArtifactPlan(s)[0] == Write([".env"], "DATABASE_URL=")
    ensures ArtifactPlan(s)[1] == Mkdir(["src"])
    ensures forall i :: 1 <= i < |ArtifactPlan(s)| ==> ArtifactPlan(s)[i].path != [".env"]
  {
  }

  /** The configuration directory is created exactly when a database was chosen. */
  lemma ConfigDirIff(s: Selection)
    ensures Mkdir(["src", "config"]) in ArtifactPlan(s) <==> s.database != NoDatabase
  {
    var plan := ArtifactPlan(s);
    if s.database != NoDatabase {
      assert plan[2] == Mkdir(ConfigDir);
    }
  }

  /**
   The mongoose module is written exactly when a database was chosen and the
   ORM is mongoose, with the fixed template, right after the configuration
   directory is created.
   */
  lemma DatabaseModuleIff(s: Selection)
    ensures Write(DatabaseModulePath, MongooseModule) in ArtifactPlan(s)
            <==> s.database != NoDatabase && s.orm == Mongoose
    ensures forall i :: 0 <= i < |ArtifactPlan(s)| && ArtifactPlan(s)[i].path == DatabaseModulePath ==>
              && ArtifactPlan(s)[i] == Write(DatabaseModulePath, MongooseModule)
              && i >= 1 && ArtifactPlan(s)[i - 1] == Mkdir(ConfigDir)
  {
    var plan := ArtifactPlan(s);
    if s.database != NoDatabase && s.orm == Mongoose {
      assert plan[3] == Write(DatabaseModulePath, MongooseModule);
    }
  }

  /**
   The prisma schema is written exactly when the ORM is prisma, as the last
   step, right after the prisma directory is created; its provider is the
   database identifier.
   */
  lemma PrismaSchemaIff(s: Selection)
    ensures Write(SchemaPath, PrismaSchema(DatabaseName(s.database))) in ArtifactPlan(s) <==> s.orm == Prisma
    ensures forall i :: 0 <= i < |ArtifactPlan(s)| && ArtifactPlan(s)[i].path == SchemaPath ==>
              && i == |ArtifactPlan(s)| - 1
              && ArtifactPlan(s)[i].Write?
              && ProviderOf(ArtifactPlan(s)[i].content) == Some(DatabaseName(s.database))
              && ArtifactPlan(s)[i - 1] == Mkdir(PrismaDir)
  {
    var plan := ArtifactPlan(s);
    ProviderRoundTrip(DatabaseName(s.database));
    if s.orm == Prisma {
      assert plan[|plan| - 1] == Write(SchemaPath, PrismaSchema(DatabaseName(s.database)));
    }
  }

  /** No two instructions of a plan name the same path, so no write overwrites another. */
  lemma PathsDistinct(s: Selection)
    ensures forall i, j :: 0 <= i < j < |ArtifactPlan(s)| ==> ArtifactPlan(s)[i].path != ArtifactPlan(s)[j].path
  {
  }

  /** The directory a path lies in. */
  function Parent(p: Path): Path
    requires p != []
  {
    p[..|p| - 1]
  }

  /** The directory dir exists once the steps have run: it is the project root or inside a created directory. */
  predicate DirReady(steps: seq<Instruction>, dir: Path) {
    dir == [] || exists j :: 0 <= j < |steps| && steps[j].Mkdir? && dir <= steps[j].path
  }

  /** Every file is written into a directory that an earlier step created (or the project root). */
  lemma ParentsCreatedFirst(s: Selection)
    ensures forall i :: 0 <= i < |ArtifactPlan(s)| ==> ArtifactPlan(s)[i].path != []
    ensures forall i :: 0 <= i < |ArtifactPlan(s)| && ArtifactPlan(s)[i].Write? ==>
              DirReady(ArtifactPlan(s)[..i], Parent(ArtifactPlan(s)[i].path))
  {
    var plan := ArtifactPlan(s);
    forall i | 0 <= i < |plan| && plan[i].Write?
      ensures DirReady(plan[..i], Parent(plan[i].path))
    {
      if i > 0 {
        assert plan[..i][i - 1] == plan[i - 1];
        assert plan[i - 1].Mkdir? && Parent(plan[i].path) <= plan[i - 1].path;
      }
    }
  }

  /** For a valid selection, the mongoose module is written exactly for a MongoDB project. */
  lemma {:induction false} ValidMongoModule(s: Selection)
    requires Valid(s)
    ensures Write(DatabaseModulePath, MongooseModule) in ArtifactPlan(s) <==> s.database == MongoDB
  {
    ValidIff(s);
    DatabaseModuleIff(s);
  }

  /** Without a database and without prisma, the only file written is the environment file. */
  lemma OnlyEnvWithoutDatabase(s: Selection)
    requires s.database == NoDatabase && s.orm != Prisma
    ensures ArtifactPlan(s) == [Write(EnvPath, EnvContent), Mkdir(SrcDir)]
  {
  }

  /**
   Prisma without a database splices the identifier "none" into the schema as
   its provider, and no configuration directory is created.
   */
  lemma PrismaWithoutDatabase(f: Framework)
    ensures ArtifactPlan(Selection(f, NoDatabase, Prisma))
         == [Write(EnvPath, EnvContent), Mkdir(SrcDir), Mkdir(PrismaDir), Write(SchemaPath, PrismaSchema("none"))]
  {
  }
}
