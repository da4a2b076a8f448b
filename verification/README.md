# Answer-to-artifact resolution engine of create-node-app-ts

A Dafny model of the decision logic of the `create-node-app-ts` scaffolder.
The operator answers three questions: the web framework, the database and the ORM.
From those answers the generator derives:

- the runtime and development package lists it hands to `yarn add`;
- the directories it creates and the files it writes into the project.

The model has four modules:

- `Choices` (Choices.dfy): the three choice lists. It also holds the ORM list computed from
  the database answer, the `Selection` record of three enumerations, its validity, and the
  reading of raw answer strings into a selection.
- `Resolver` (Resolver.dfy): the static package tables. A missing key reads as the empty
  list, as `|| []` does; the only such lookup that happens is mongoose's development entry,
  which `Resolver.DevEmptyIff` shows yields an empty list. `RuntimeOf`/`DevOf` define the two
  lists, and `Resolve` builds them by successive appends, as the generator does. The fallback
  is covered by the `Resolve` and `DevEmptyIff` rows below.
- `Planner` (Planner.dfy): the file-system steps as a returned sequence of `Mkdir(path)` and
  `Write(path, content)` instructions. A path is the list of segments that `path.join`
  puts under the project directory. The file contents are the exact template strings. The
  prisma schema splices in the database identifier, and `ProviderOf` reads it back.
- `Generator` (Generator.dfy): one generation. It resolves, plans, and then decides the
  `yarn add` invocations: runtime first, then `--dev`, each only for a non-empty list.
  Each command line reads back, split at spaces, as exactly the list it installs. The module
  also holds four example scenarios (express bare, fastify+mongodb, nestjs+prisma,
  express+mysql+sequelize).

The resolver and the planner accept every selection, valid or not, as the source does. The
properties that hold only for selections the prompt can produce take `Valid(s)` as a premise.

Behaviours of the code worth noting:
- The planner always creates `src` after writing `.env`, so a bare selection yields two
  instructions: write `.env`, create `src`. `.env` is the only file written.
- The mongoose module is written only when a database is chosen as well: the test
  for mongoose sits inside the database branch.
- Prisma with no database writes a schema whose provider is `"none"`, and creates no
  configuration directory (`Planner.PrismaWithoutDatabase`).

## Model

| member | source | states |
|---|---|---|
| Choices.FrameworkChoices | template-cli/create-node-app-ts.js:18 | three framework choices, and every framework's identifier is among them |
| Choices.DatabaseChoices | template-cli/create-node-app-ts.js:24 | four database choices, and every database's identifier is among them |
| Choices.OrmChoices | template-cli/create-node-app-ts.js:30-35 | for mongodb the list has the single entry mongoose; for any other answer it has five entries, none first, and offers every ORM except mongoose |
| Choices.ValidIff | template-cli/create-node-app-ts.js:24-35 | a selection is one the prompt can produce iff its ORM is mongoose exactly when its database is mongodb |
| Choices.ParseFramework | template-cli/create-node-app-ts.js:18 | an answer reads as a framework iff it is an offered choice, and then as the framework with that identifier |
| Choices.ParseDatabase | template-cli/create-node-app-ts.js:24 | an answer reads as a database iff it is an offered choice, and then as the database with that identifier |
| Choices.ParseOrm | template-cli/create-node-app-ts.js:30-35 | an answer reads as the ORM with that identifier, and as nothing iff no ORM has it |
| Choices.FromAnswers | template-cli/create-node-app-ts.js:12-37 | raw answers give a selection iff each answer is offered, the ORM judged against the list computed from the database answer; the selection is valid and carries exactly those identifiers |
| Choices.FromAnswersRoundTrip | template-cli/create-node-app-ts.js:12-37 | every valid selection is read back from its own identifiers |
| Resolver.SequelizeDriver | template-cli/create-node-app-ts.js:100 | the driver is pg exactly for postgresql, and mysql2 for every other database |
| Resolver.Resolve | template-cli/create-node-app-ts.js:87-101 | the appended lists equal the specified runtime and development lists |
| Resolver.FrameworkFirst | template-cli/create-node-app-ts.js:41-46 | every framework contributes at least two packages, which open the runtime list in table order, so that list is never empty |
| Resolver.RuntimeCount | template-cli/create-node-app-ts.js:87-101 | no entry is merged or dropped: each package occurs as often as the framework, the chosen database, the chosen ORM and the sequelize driver together contribute it |
| Resolver.RuntimeLength | template-cli/create-node-app-ts.js:90-101 | the runtime length is the sum of the framework, database-if-chosen, ORM-if-chosen and sequelize-driver contributions |
| Resolver.SequelizeDriverLast | template-cli/create-node-app-ts.js:99-101 | with sequelize the last runtime entry is pg for postgresql and mysql2 otherwise, including no database |
| Resolver.NoDriverWithoutSequelize | template-cli/create-node-app-ts.js:90-101 | without sequelize, pg and mysql2 each occur once exactly when their database was chosen, and never otherwise |
| Resolver.MysqlSequelizeDuplicate | template-cli/create-node-app-ts.js:90-101 | for every framework, mysql+sequelize lists mysql2 twice, postgresql+sequelize lists pg twice, and no database with sequelize lists mysql2 once |
| Resolver.FrameworkLacksDrivers | template-cli/create-node-app-ts.js:41-46 | no framework entry contains pg or mysql2 |
| Resolver.OrmLacksDrivers | template-cli/create-node-app-ts.js:52-58 | no ORM entry contains pg or mysql2 |
| Resolver.DatabaseDriverCount | template-cli/create-node-app-ts.js:47-51 | pg occurs once in the postgresql entry and mysql2 once in the mysql entry, and neither occurs elsewhere |
| Resolver.KnexInBothLists | template-cli/create-node-app-ts.js:52-68 | with knex, knex is in the runtime list and the development list is exactly knex |
| Resolver.DevEmptyIff | template-cli/create-node-app-ts.js:61-68 | the development list is empty iff the ORM is none or mongoose; otherwise it is that ORM's entry, ts-node and ts-node-dev for prisma, typeorm and sequelize |
| Planner.PrismaSchema | template-cli/create-node-app-ts.js:131-137 | the schema is the fixed datasource head, then the provider, then the fixed url-and-generator tail |
| Planner.ProviderOf | template-cli/create-node-app-ts.js:131-137 | a provider read from a schema rebuilds that very schema |
| Planner.ProviderRoundTrip | template-cli/create-node-app-ts.js:131-137 | the provider spliced into a schema is read back unchanged |
| Planner.ArtifactPlan | template-cli/create-node-app-ts.js:103-138 | a plan has between two and five instructions |
| Planner.Plan | template-cli/create-node-app-ts.js:103-138 | the instructions emitted one by one equal the specified plan |
| Planner.EnvFirstAndOnce | template-cli/create-node-app-ts.js:103-106 | every plan writes .env with DATABASE_URL= first, creates src second, and no later step touches .env |
| Planner.ConfigDirIff | template-cli/create-node-app-ts.js:108-110 | src/config is created iff a database was chosen |
| Planner.DatabaseModuleIff | template-cli/create-node-app-ts.js:108-126 | src/config/database.ts is written iff a database was chosen and the ORM is mongoose, always with the fixed module text and right after src/config is created |
| Planner.PrismaSchemaIff | template-cli/create-node-app-ts.js:129-137 | prisma/schema.prisma is written iff the ORM is prisma, as the last step, right after the prisma directory, with the database identifier as provider |
| Planner.PathsDistinct | template-cli/create-node-app-ts.js:103-138 | no two instructions of a plan name the same path |
| Planner.ParentsCreatedFirst | template-cli/create-node-app-ts.js:103-137 | every file is written at the project root or into a directory created by an earlier step |
| Planner.ValidMongoModule | template-cli/create-node-app-ts.js:108-126 | for a valid selection the mongoose module is written iff the database is mongodb |
| Planner.OnlyEnvWithoutDatabase | template-cli/create-node-app-ts.js:103-138 | without a database and without prisma the plan is exactly: write .env, create src |
| Planner.PrismaWithoutDatabase | template-cli/create-node-app-ts.js:129-137 | prisma with no database writes a schema whose provider is "none", and creates no src/config |
| Generator.SplitJoin | template-cli/create-node-app-ts.js:142 | a non-empty list of space-free package names, joined with single spaces, splits back into exactly that list |
| Generator.CommandLine | template-cli/create-node-app-ts.js:140-148 | every command starts with yarn add, development ones with yarn add --dev; for a non-empty list of space-free names the rest of the line splits back into exactly the installed list |
| Generator.ResolvedSpaceFree | template-cli/create-node-app-ts.js:41-101 | no package name in either resolved list contains a space |
| Generator.CommandsEncodeLists | template-cli/create-node-app-ts.js:140-148 | for every selection, each install command's package part splits back into exactly the list that install carries |
| Generator.Installs | template-cli/create-node-app-ts.js:140-148 | a runtime install happens iff the runtime list is non-empty and a development install iff the development list is non-empty; the runtime install comes first; no install has an empty list |
| Generator.GenerateProject | template-cli/create-node-app-ts.js:87-148 | one generation yields the specified plan and the installs of the specified lists |
| Generator.InstallsOf | template-cli/create-node-app-ts.js:140-148 | every generation installs its runtime list first, and installs development packages iff the ORM is neither none nor mongoose |
| Generator.ScenarioExpressBare | template-cli/create-node-app-ts.js:41-106 | express/none/none gives express, @types/express, cors; no development packages; only .env and src |
| Generator.ScenarioFastifyMongo | template-cli/create-node-app-ts.js:41-126 | fastify/mongodb/mongoose gives fastify, @fastify/cors, mongodb, mongoose, and writes the connection module under src/config |
| Generator.ScenarioNestPrisma | template-cli/create-node-app-ts.js:41-137 | nestjs/postgresql/prisma gives the nestjs packages, pg, prisma, @prisma/client; ts-node and ts-node-dev as development packages; a schema with provider postgresql |
| Generator.ScenarioExpressSequelize | template-cli/create-node-app-ts.js:41-101 | express/mysql/sequelize gives express, @types/express, cors, mysql2, sequelize, sequelize-typescript, mysql2: mysql2 once from the database and once more as the sequelize driver |

## Left out

- The interactive prompt itself (`inquirer.prompt`, the question messages). The model keeps
  the choice lists, the ORM-choice function, and `FromAnswers` for what the prompt lets through.
- Reading and parsing `package.json`, and the `process.exit(1)` when that fails: file-system
  I/O, JSON parsing and process control. The manifest content is never used by the core.
- The actual `fs.writeFile`/`fs.mkdir` calls, and `path.join` against the working directory.
  The plan holds relative paths as segment lists. Applying it is left to the caller, in order.
- `execSync`: the model decides which `yarn add` invocations happen and their command lines.
  Running them and their failures are not modelled.
- Console output and the top-level try/catch in `main`: logging and error plumbing.
- `eslint.config.js` and `jest.config.js`: static tool configuration with no logic.
