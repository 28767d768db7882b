/** The Postgres block of the `/demo` handler (demo.controller.ts lines
    14-33): create a `Tag` named `demo-<rnd>`, read it back by the id the
    create returned, rename it to `demo-<rnd>-updated`, delete it. The first
    call that throws skips the rest and the block reports `fail` with that
    error's text; there is no partial success. */
module PostgresProbe {
  import opened Outcomes

  /** A row of the `Tag` table. */
  datatype Tag = Tag(id: int, name: string)

  /** What each Prisma call of one run replies. `findUnique` may complete
      with no row (`null`), which is not an error. */
  datatype TagReplies = TagReplies(
    create: Result<Tag>,
    findUnique: Result<Option<Tag>>,
    update: Result<Tag>,
    delete: Result<Tag>)

  /** A Prisma call the probe issues, with its arguments. */
  datatype TagCall =
    | Create(name: string)
    | FindUnique(id: int)
    | Update(id: int, name: string)
    | Delete(id: int)

  /** `demo-${rnd}`, where `rnd` stands for `Math.random().toString(36).slice(2, 8)`. */
  function CreateName(rnd: string): string
  {
    "demo-" + rnd
  }

  /** `${name1}-updated` */
  function UpdateName(rnd: string): string
  {
    CreateName(rnd) + "-updated"
  }

  /** What the four steps throw, in the order they run. */
  function StepErrors(db: TagReplies): (errs: seq<Option<Thrown>>)
    ensures |errs| == 4
    ensures errs[0].None? <==> db.create.Ok?
    ensures errs[1].None? <==> db.findUnique.Ok?
    ensures errs[2].None? <==> db.update.Ok?
    ensures errs[3].None? <==> db.delete.Ok?
  {
    [ErrorOf(db.create), ErrorOf(db.findUnique), ErrorOf(db.update), ErrorOf(db.delete)]
  }

  /** The id of the created row; the later calls only run when it exists. */
  function CreatedId(db: TagReplies): int
  {
    if db.create.Ok? then db.create.value.id else 0
  }

  /** The four calls in order, the last three aimed at the created row. */
  function Plan(rnd: string, id: int): (plan: seq<TagCall>)
    ensures |plan| == 4
  {
    [Create(CreateName(rnd)), FindUnique(id), Update(id, UpdateName(rnd)), Delete(id)]
  }

  /** The calls one run issues: the plan up to the first call that throws. */
  function Calls(rnd: string, db: TagReplies): seq<TagCall>
  {
    Plan(rnd, CreatedId(db))[..Attempted(StepErrors(db))]
  }

  /** The outcome the block stores in `result.postgres`. */
  function Classify(db: TagReplies): Outcome
  {
    TryOutcome(StepErrors(db), Success)
  }

  /** Runs the four calls in order, stopping at the first that throws. */
  method Run(rnd: string, db: TagReplies) returns (o: Outcome, calls: seq<TagCall>)
    ensures o == Classify(db)
    ensures calls == Calls(rnd, db)
  {
    calls := [Create(CreateName(rnd))];
    if db.create.Err? {
      FirstThrowingStep(StepErrors(db), 0, Success);
      return FailWith(db.create.error), calls;
    }
    var created := db.create.value;
    calls := calls + [FindUnique(created.id)];
    if db.findUnique.Err? {
      FirstThrowingStep(StepErrors(db), 1, Success);
      return FailWith(db.findUnique.error), calls;
    }
    calls := calls + [Update(created.id, UpdateName(rnd))];
    if db.update.Err? {
      FirstThrowingStep(StepErrors(db), 2, Success);
      return FailWith(db.update.error), calls;
    }
    calls := calls + [Delete(created.id)];
    if db.delete.Err? {
      FirstThrowingStep(StepErrors(db), 3, Success);
      return FailWith(db.delete.error), calls;
    }
    NoThrowingStep(StepErrors(db), Success);
    o := Success;
  }

  /** `success` exactly when all four calls complete; never a partial success. */
  lemma SuccessIffAllStepsComplete(db: TagReplies)
    ensures Classify(db).Success? <==> db.create.Ok? && db.findUnique.Ok? && db.update.Ok? && db.delete.Ok?
    ensures !Classify(db).PartialSuccess?
  {
    var errs := StepErrors(db);
    if db.create.Ok? && db.findUnique.Ok? && db.update.Ok? && db.delete.Ok? {
      NoThrowingStep(errs, Success);
    } else {
      TryOutcomeFailsIffSomeStepThrows(errs, Success);
      assert errs[0].Some? || errs[1].Some? || errs[2].Some? || errs[3].Some?;
    }
  }

  /** A failure carries the text of the first call that threw, and no later
      call is issued. */
  lemma FailureStopsAtFirstError(rnd: string, db: TagReplies)
    ensures db.create.Err? ==>
              Classify(db) == FailWith(db.create.error) && Calls(rnd, db) == [Create(CreateName(rnd))]
    ensures db.create.Ok? && db.findUnique.Err? ==>
              Classify(db) == FailWith(db.findUnique.error) && |Calls(rnd, db)| == 2
    ensures db.create.Ok? && db.findUnique.Ok? && db.update.Err? ==>
              Classify(db) == FailWith(db.update.error) && |Calls(rnd, db)| == 3
    ensures db.create.Ok? && db.findUnique.Ok? && db.update.Ok? && db.delete.Err? ==>
              Classify(db) == FailWith(db.delete.error) && |Calls(rnd, db)| == 4
  {
    var errs := StepErrors(db);
    if db.create.Err? {
      FirstThrowingStep(errs, 0, Success);
    } else if db.findUnique.Err? {
      FirstThrowingStep(errs, 1, Success);
    } else if db.update.Err? {
      FirstThrowingStep(errs, 2, Success);
    } else if db.delete.Err? {
      FirstThrowingStep(errs, 3, Success);
    }
  }

  /** A read that finds no row is not an error. */
  lemma MissingRowIsNotAnError(db: TagReplies)
    requires db.create.Ok? && db.findUnique == Ok(None) && db.update.Ok? && db.delete.Ok?
    ensures Classify(db) == Success
  {
    SuccessIffAllStepsComplete(db);
  }

  /** The calls create a `demo-` name and aim every later call at the id the
      create returned, renaming to the created name plus `-updated`; a
      successful run ends by deleting that row. */
  lemma CallsTargetCreatedRow(rnd: string, db: TagReplies)
    ensures 1 <= |Calls(rnd, db)| <= 4
    ensures Calls(rnd, db)[0] == Create(CreateName(rnd)) && "demo-" <= Calls(rnd, db)[0].name
    ensures forall i :: 1 <= i < |Calls(rnd, db)| ==> db.create.Ok? && Calls(rnd, db)[i].id == db.create.value.id
    ensures forall i :: 1 <= i < |Calls(rnd, db)| && Calls(rnd, db)[i].Update? ==>
              Calls(rnd, db)[i].name == Calls(rnd, db)[0].name + "-updated"
    ensures Classify(db).Success? ==> Calls(rnd, db)[|Calls(rnd, db)| - 1] == Delete(db.create.value.id)
  {
    SuccessIffAllStepsComplete(db);
    if Classify(db).Success? {
      NoThrowingStep(StepErrors(db), Success);
    }
  }
}
