# Tutor management system: grading, Schein criteria and helpers in Dafny

This project models the core of the Tutor-Management-System, a tool for tutorials at a university. Students hand in sheets and take exams and short tests. Tutors grade them, and the Schein (the course certificate) is granted when every Schein criterion is passed. The model covers the grading and Schein core of both back ends (the Java one and the TypeScript server) and a few self-contained helpers of the web client. Everything works on in-memory values. Dates are integer day numbers, ids are opaque strings, and points are exact `real` values.

Each Dafny module follows one source file:

- `Students` (Student.java): a student's own points and its team's points. Own points always win in the merged view. The module also covers per-sheet sums, moving the team's points to the student, presentation points and exam results.
- `StudentService` (StudentService.java): changing a student's team or tutorial, setting points and presentation points, and the summary of all Schein criteria, which is passed exactly when every criterion is passed.
- `FormGenerator` (FormGeneratorClasspathItertor.java): the form-field descriptors derived from a criterion class's fields and those of its superclasses, including the decision table for float bounds and its two errors.
- `CriteriaContainer` (scheincriteria.container.ts): the metadata registry of the TypeScript criteria, walking the prototype chain, and the blueprints and form data of the criteria.
- `RatedEntity` (ratedEntity.entity.ts): how maximum points split into must-have and bonus points, and the pass rule of a rated hand-in.
- `ExamCriterion` (ScheinexamCriteria.ts): the exam criterion in individual mode and in total mode.
- `GradingEntity` and `GradingModel` (grading.entity.ts, grading.model.ts): a grading belongs to exactly one hand-in, its point sums, and rebuilding it from the client's data.
- `StudentEntity` (student.entity.ts): at most one attendance per day, at most one grading per hand-in, and presentation points.
- `TutorialModel` (tutorial.model.ts): a tutorial's dates as ISO day keys and its substitutes per day.
- `TeamService` (team.service.ts): the first free team number, the same-tutorial check, and handing a grading to team members.
- `TutorialService` (tutorial.service.ts): tutorials generated per weekday over an interval minus excluded days, with slot numbering per weekday, plus the checks on creating and deleting tutorials and setting substitutes.
- `TutorialServiceJava` (TutorialService.java): deleting and updating a tutorial, setting a substitute on a list of dates, and listing the tutorials in which a user substitutes.
- `UserService` (user.service.ts): the checks on a user's data, the last-admin rules, batch creation with its rollback, and how an update relinks the user to tutorials.
- `StudentsAdminView` (AllStudentsAdminView.tsx): the shortest unique ending of a matriculation number.
- `UserForm` (UserForm.tsx): the suggested username and the initial form values.
- `PasswordGenerator` (PasswordGenerator.ts): options and their defaults, the character pool, the strict-mode length check and its rules, and generation from a refilled cache of random values.
- `Routing` (Routing.types.tsx): route options and their checks, questions about a built route, and combining routes.
- `IliasMapping` (IliasMapping.context.tsx): mapping the Ilias names of a short-test import to students, and editing that mapping by hand.
- `TutorialForm` (TutorialForm.tsx): weekly dates between two dates, and the initial form values.
- `JsStrings`: JavaScript's `substr`, shared by `Settings` and `StudentsAdminView`.
- `Settings` (settings.static.ts): the session timeout, the path prefix, the API prefix, and the text for a failed configuration validation.

How the source is carried over:

- Code that mutates objects becomes Dafny classes with `modifies` clauses. Its loops become `while` or `for` loops, proved against specification functions.
- Pure code becomes functions and lemmas.
- `Wrappers` holds the `Option` and `Result` types that carry the source's error paths.

## Model

| member | source | states |
|---|---|---|
| `Students.Team.GetPoints` | src/main/java/de/unistuttgart/iste/rss/tutormanagementsystem/model/student/Student.java:182-184 | a team's points for an exercise are present exactly when the team has an entry for it, and then they are that entry |
| `Students.Overlay` | src/main/java/de/unistuttgart/iste/rss/tutormanagementsystem/model/student/Student.java:130-140 | the merged points hold every own entry unchanged, every team entry the student has no own entry for, and nothing else: own points take precedence |
| `Students.OverlayIdempotent` | src/main/java/de/unistuttgart/iste/rss/tutormanagementsystem/model/student/Student.java:199-222 | merging the team's points into the already merged points changes nothing, so moving the team's points to the student twice is moving them once |
| `Students.SumPointsOtherEntry` | src/main/java/de/unistuttgart/iste/rss/tutormanagementsystem/model/student/Student.java:189-197 | the points of a sheet depend only on the entries of that sheet for its listed exercises: changing any other entry leaves the sum unchanged |
| `Students.SumPointsNonNegative` | src/main/java/de/unistuttgart/iste/rss/tutormanagementsystem/model/student/Student.java:189-197 | with no negative entries the points of a sheet are not negative |
| `Students.ApplyExercisePoints` | src/main/java/de/unistuttgart/iste/rss/tutormanagementsystem/service/StudentService.java:193-218 | after setting points for a sheet, an entry exists for every old entry and for every given exercise number the sheet has; those hold the given value, every other entry is unchanged, and numbers the sheet lacks are ignored |
| `Students.ApplyExercisePointsIdempotent` | src/main/java/de/unistuttgart/iste/rss/tutormanagementsystem/service/StudentService.java:206-221 | setting the same points of a sheet twice is setting them once |
| `Students.EntriesMap` | src/main/java/de/unistuttgart/iste/rss/tutormanagementsystem/service/StudentService.java:211 | the map of the client's entries has a key exactly for each exercise number that occurs among them |
| `Students.ApplyStep` | src/main/java/de/unistuttgart/iste/rss/tutormanagementsystem/service/StudentService.java:211-218 | one more given entry sets exactly the points of that exercise when the sheet has it and changes nothing otherwise |
| `Students.Student.constructor` | src/main/java/de/unistuttgart/iste/rss/tutormanagementsystem/model/student/Student.java:94-112 | a new student holds the given personal data, team and tutorial and copies of the given attendance, points, presentation points and exam results |
| `Students.Student.SetAttendanceState` | src/main/java/de/unistuttgart/iste/rss/tutormanagementsystem/model/student/Student.java:114-116 | the attendance of the date is replaced and nothing else changes |
| `Students.Student.PointsOfStudent` | src/main/java/de/unistuttgart/iste/rss/tutormanagementsystem/model/student/Student.java:122-140 | every own entry is in the result unchanged; every team entry without an own entry is in it with the team's value; nothing else is; without a team the result is the own points |
| `Students.Student.SetPoints` | src/main/java/de/unistuttgart/iste/rss/tutormanagementsystem/model/student/Student.java:143-150 | only the entry of the sheet and exercise changes, to the given value; team, attendance, presentation points and exam results stay |
| `Students.Student.HasPoints` | src/main/java/de/unistuttgart/iste/rss/tutormanagementsystem/model/student/Student.java:157-159 | true exactly when the student has an own entry for the point id |
| `Students.Student.SetPresentationPoints` | src/main/java/de/unistuttgart/iste/rss/tutormanagementsystem/model/student/Student.java:165-172 | setting 0 for a sheet that has an entry removes it, any other value is stored for the sheet; nothing else changes |
| `Students.PresentationGetAfterSet` | src/main/java/de/unistuttgart/iste/rss/tutormanagementsystem/model/student/Student.java:165-172 | reading an absent entry as 0, a sheet's presentation points are the value set last; an entry disappears only when 0 is set for an existing one; other sheets keep their entries |
| `Students.Student.GetPoints` | src/main/java/de/unistuttgart/iste/rss/tutormanagementsystem/model/student/Student.java:174-187 | the points of an exercise are present exactly when the merged view has an entry (own, else the team's) and are that entry |
| `Students.Student.GetSheetPoints` | src/main/java/de/unistuttgart/iste/rss/tutormanagementsystem/model/student/Student.java:189-197 | the points of a sheet are the sum over its exercises of the merged points, a missing entry counting as 0 |
| `Students.Student.MovePointsFromTeamToStudent` | src/main/java/de/unistuttgart/iste/rss/tutormanagementsystem/model/student/Student.java:199-222 | the own points become the merged view: every team entry is added where the student has none, own entries are unchanged, and nothing changes without a team |
| `Students.Student.GetScheinExamResult` | src/main/java/de/unistuttgart/iste/rss/tutormanagementsystem/model/student/Student.java:224-233 | the result of an exam exercise is present exactly when the student has an entry for it, and is that entry |
| `Students.Student.GetScheinExamTotal` | src/main/java/de/unistuttgart/iste/rss/tutormanagementsystem/model/student/Student.java:235-243 | the result of an exam is the sum over its exercises of the student's results, a missing one counting as 0 |
| `Students.Student.SetScheinExamResults` | src/main/java/de/unistuttgart/iste/rss/tutormanagementsystem/model/student/Student.java:245-249 | only the exam result of that exercise changes, to the given value |
| `StudentService.RemoveFirst` | src/main/java/de/unistuttgart/iste/rss/tutormanagementsystem/service/StudentService.java:94 | removing a student from a list drops one occurrence of it when there is one and leaves the list unchanged otherwise |
| `StudentService.DeleteStudentFromTeam` | src/main/java/de/unistuttgart/iste/rss/tutormanagementsystem/service/StudentService.java:85-101 | the student is removed from the team's students, and the team is reported for deletion exactly when no student is left |
| `StudentService.SetTeam` | src/main/java/de/unistuttgart/iste/rss/tutormanagementsystem/service/StudentService.java:120-140 | the student gets the new team; the old team's points are copied to the student exactly when there was a different previous team; attendance, presentation points and exam results stay |
| `StudentService.RemoveTeam` | src/main/java/de/unistuttgart/iste/rss/tutormanagementsystem/service/StudentService.java:142-165 | the student is left without a team and with the merged points; it is removed from its old team's students; the team is deleted when that leaves it empty |
| `StudentService.UpdateStudent` | src/main/java/de/unistuttgart/iste/rss/tutormanagementsystem/service/StudentService.java:167-185 | the updated student has the new personal data and tutorial; on a tutorial change the team's points are copied and the team is dropped, else it gets the team named in the data; attendance, points, presentation points and exam results are kept |
| `StudentService.SetPoints` | src/main/java/de/unistuttgart/iste/rss/tutormanagementsystem/service/StudentService.java:193-221 | the student's points become the sheet's points applied with the client's entries: numbers the sheet lacks are ignored, the rest overwrite; nothing else changes |
| `StudentService.SetPresentationPoints` | src/main/java/de/unistuttgart/iste/rss/tutormanagementsystem/service/StudentService.java:236-248 | negative points are rejected with the source's message and change nothing; other points are set as the student's operation sets them |
| `StudentService.SetScheinExamResults` | src/main/java/de/unistuttgart/iste/rss/tutormanagementsystem/service/StudentService.java:263-292 | the exam results become the exam's results applied with the client's entries, numbers the exam lacks ignored; nothing else changes |
| `StudentService.StatusesKeys` | src/main/java/de/unistuttgart/iste/rss/tutormanagementsystem/service/StudentService.java:322-336 | the summary has an entry for a criterion id exactly when some criterion has that id, and it holds the status of the last criterion with that id |
| `StudentService.AllPassedIff` | src/main/java/de/unistuttgart/iste/rss/tutormanagementsystem/service/StudentService.java:326-333 | the conjunction of the criteria's results is true exactly when every criterion is passed |
| `StudentService.ScheinCriteriaSummary` | src/main/java/de/unistuttgart/iste/rss/tutormanagementsystem/service/StudentService.java:322-336 | the summary loop yields the statuses by criterion id, and the student passed exactly when every criterion is passed |
| `FormGenerator.FloatFieldData` | src/main/java/de/unistuttgart/iste/rss/tutormanagementsystem/formgenerator/FormGeneratorClasspathItertor.java:216-247 | a float descriptor fails exactly when the percentage annotation is combined with a number or possible-percentage annotation, with the source's message for each; a percentage alone gives 0..100 with the flag; no annotation gives an unbounded descriptor; number bounds and a toggle give exactly those |
| `FormGenerator.FloatFieldFlags` | src/main/java/de/unistuttgart/iste/rss/tutormanagementsystem/formgenerator/FormGeneratorClasspathItertor.java:219-246 | every float descriptor produced has the percentage flag exactly for the percentage annotation, the toggle of the possible-percentage annotation, and bounds exactly when a bounding annotation is present |
| `FormGenerator.JavaIntCast` | src/main/java/de/unistuttgart/iste/rss/tutormanagementsystem/formgenerator/FormGeneratorClasspathItertor.java:163 | the cast of a bound to `int` saturates: at least 2147483647 gives 2147483647 and at most -2147483648 gives -2147483648; in between it rounds toward zero (the result is the greatest whole number not above a non-negative bound, the least not below a non-positive one) |
| `FormGenerator.IsIgnoreField` | src/main/java/de/unistuttgart/iste/rss/tutormanagementsystem/formgenerator/FormGeneratorClasspathItertor.java:196-214 | a field is ignored exactly when one of its annotations is the ignore, injection or transient annotation |
| `FormGenerator.EnumValues` | src/main/java/de/unistuttgart/iste/rss/tutormanagementsystem/formgenerator/FormGeneratorClasspathItertor.java:179-184 | an enum field lists one selectable value per constant, in order, named and valued by it |
| `FormGenerator.FieldData` | src/main/java/de/unistuttgart/iste/rss/tutormanagementsystem/formgenerator/FormGeneratorClasspathItertor.java:142-194 | an ignored field and a field of an unsupported type get no descriptor; only a float field can fail; an enum descriptor lists the constants |
| `FormGenerator.FieldDataKind` | src/main/java/de/unistuttgart/iste/rss/tutormanagementsystem/formgenerator/FormGeneratorClasspathItertor.java:150-191 | a field that is not ignored and has a supported type gets a descriptor of its own kind: a string or boolean field; an integer field whose bounds are the `int` casts of the number annotation's min and max, or no bounds without the annotation; the float descriptor of its annotations, failing exactly when that descriptor fails; an enum field listing the constants |
| `FormGenerator.FormFieldDataForField` | src/main/java/de/unistuttgart/iste/rss/tutormanagementsystem/formgenerator/FormGeneratorClasspathItertor.java:142-194 | the generator's case split computes the field's descriptor |
| `FormGenerator.AllFieldsIncludesChain` | src/main/java/de/unistuttgart/iste/rss/tutormanagementsystem/formgenerator/FormGeneratorClasspathItertor.java:107-129 | the collected fields include every field declared by the class or by any of its superclasses |
| `FormGenerator.AllFieldsOnlyChain` | src/main/java/de/unistuttgart/iste/rss/tutormanagementsystem/formgenerator/FormGeneratorClasspathItertor.java:107-129 | every collected field is declared by the class or by one of its superclasses |
| `FormGenerator.GetAllFields` | src/main/java/de/unistuttgart/iste/rss/tutormanagementsystem/formgenerator/FormGeneratorClasspathItertor.java:116-129 | the loop up the superclass chain collects the class's fields followed by each superclass's, stopping at Object |
| `FormGenerator.FormOfEntries` | src/main/java/de/unistuttgart/iste/rss/tutormanagementsystem/formgenerator/FormGeneratorClasspathItertor.java:86-98 | a form is built exactly when no field's annotations contradict each other, and it then has an entry for exactly the names of the fields that get a descriptor |
| `FormGenerator.FormOfOk` | src/main/java/de/unistuttgart/iste/rss/tutormanagementsystem/formgenerator/FormGeneratorClasspathItertor.java:86-98 | a form is built exactly when every field's descriptor can be built |
| `FormGenerator.FormOfNames` | src/main/java/de/unistuttgart/iste/rss/tutormanagementsystem/formgenerator/FormGeneratorClasspathItertor.java:93-97 | the built form has an entry for a name exactly when some field of that name gets a descriptor |
| `FormGenerator.FormOfErrorSticks` | src/main/java/de/unistuttgart/iste/rss/tutormanagementsystem/formgenerator/FormGeneratorClasspathItertor.java:86-98 | the first contradictory field aborts the whole form with its error |
| `FormGenerator.FormOfClass` | src/main/java/de/unistuttgart/iste/rss/tutormanagementsystem/formgenerator/FormGeneratorClasspathItertor.java:86-98 | the form of a class is the form of all its fields and its superclasses' fields |
| `FormGenerator.FormsIdentifiers` | src/main/java/de/unistuttgart/iste/rss/tutormanagementsystem/formgenerator/FormGeneratorClasspathItertor.java:61-100 | every identifier of the generated forms belongs to a criteria class whose annotation is visible and whose class data was found |
| `FormGenerator.FormsErrorSticks` | src/main/java/de/unistuttgart/iste/rss/tutormanagementsystem/formgenerator/FormGeneratorClasspathItertor.java:61-101 | the first class with a contradictory field aborts the whole generation with its error |
| `FormGenerator.Run` | src/main/java/de/unistuttgart/iste/rss/tutormanagementsystem/formgenerator/FormGeneratorClasspathItertor.java:55-105 | the loop over the criteria classes computes the forms by identifier, passing over classes without a visible annotation or class data |
| `CriteriaContainer.FirstMetadataFound` | server/src/module/scheincriteria/container/scheincriteria.container.ts:49-64 | the lookup along the prototype chain returns the metadata of the first class that has some for the property |
| `CriteriaContainer.FirstMetadataEmpty` | server/src/module/scheincriteria/container/scheincriteria.container.ts:49-66 | when no class along the chain has metadata for the property, the lookup returns the empty metadata |
| `CriteriaContainer.FieldDataForProperty` | server/src/module/scheincriteria/container/scheincriteria.container.ts:146-228 | the identifier and ignored properties get no field; the result is an error, with the source's message, exactly for a number property without metadata; enum metadata gives an enum field of its entries whatever the type; otherwise a string property gets a string field, a boolean property a boolean field and a property of any other non-number type none; a percentage gives 0..100 with the flag |
| `CriteriaContainer.SelectValues` | server/src/module/scheincriteria/container/scheincriteria.container.ts:168-171 | an enum field has one selectable value per entry, in order, named and valued by it |
| `CriteriaContainer.NumberFieldKinds` | server/src/module/scheincriteria/container/scheincriteria.container.ts:185-218 | a number property with metadata always gets a field, an integer field exactly for int metadata: int metadata gives an integer field with its bounds, percentage metadata a 0..100 percentage field, possible-percentage metadata a float field toggled by the named property, float metadata a float field with its bounds, and any other metadata a float field without bounds |
| `CriteriaContainer.FormHasNoIdentifier` | server/src/module/scheincriteria/container/scheincriteria.container.ts:153-155 | no blueprint has a field for the identifier property |
| `CriteriaContainer.FormHasNoIgnored` | server/src/module/scheincriteria/container/scheincriteria.container.ts:164-166 | a property whose metadata says to ignore it never has a field |
| `CriteriaContainer.FormErrorSticks` | server/src/module/scheincriteria/container/scheincriteria.container.ts:78-88 | a number property without metadata aborts the registration with its error whatever follows it |
| `CriteriaContainer.SCContainer.constructor` | server/src/module/scheincriteria/container/scheincriteria.container.ts:22-25 | a new container has no metadata and no blueprints |
| `CriteriaContainer.SCContainer.AddMetadata` | server/src/module/scheincriteria/container/scheincriteria.container.ts:27-37 | saving metadata replaces any earlier value for the key and changes nothing else |
| `CriteriaContainer.SCContainer.GetMetadata` | server/src/module/scheincriteria/container/scheincriteria.container.ts:39-67 | the loop along the prototype chain returns the first metadata found for the property, else the empty metadata |
| `CriteriaContainer.SCContainer.RegisterBluePrint` | server/src/module/scheincriteria/container/scheincriteria.container.ts:69-91 | registration succeeds exactly when every property's field can be built; the blueprint then holds the fields of exactly the properties that have one, under the identifier, replacing an earlier one; a failure changes nothing |
| `CriteriaContainer.RegisteredLastWins` | server/src/module/scheincriteria/container/scheincriteria.container.ts:90 | registering two blueprints with the same identifier keeps only the last |
| `CriteriaContainer.SCContainer.GetFormFieldDataForProperty` | server/src/module/scheincriteria/container/scheincriteria.container.ts:146-228 | the container's case split computes the property's field from the metadata found along the chain |
| `CriteriaContainer.SCContainer.GetBluePrint` | server/src/module/scheincriteria/container/scheincriteria.container.ts:93-112 | the blueprint is returned exactly when one is registered under the identifier, else the source's not-found error |
| `CriteriaContainer.SCContainer.GetFormData` | server/src/module/scheincriteria/container/scheincriteria.container.ts:114-134 | the form data has exactly one entry per registered identifier, holding that blueprint's fields |
| `CriteriaContainer.CopyFormDataSet` | server/src/module/scheincriteria/container/scheincriteria.container.ts:125-128 | copying a blueprint's fields entry by entry yields the same fields |
| `RatedEntity.RatioAtLeastPositive` | server/src/database/entities/ratedEntity.entity.ts:200 | with a positive divisor the pass test `achieved / must >= percentage` is the multiplied-out comparison |
| `RatedEntity.RatioAtLeastMonotone` | server/src/database/entities/ratedEntity.entity.ts:200 | with a non-negative divisor, more achieved points never turn a pass into a failure |
| `RatedEntity.SubPointInfo` | server/src/database/entities/ratedEntity.entity.ts:31-39 | a bonus sub-exercise contributes its maximum to the bonus side only, any other to the must-have side only |
| `RatedEntity.SplitByFlagSums` | server/src/database/entities/ratedEntity.entity.ts:97-103 | the fold over the sub-exercises puts on each side exactly the sum of the maxima of the sub-exercises with that flag, and the two sides add up to all maxima |
| `RatedEntity.ExercisePointInfo` | server/src/database/entities/ratedEntity.entity.ts:85-105 | an exercise with sub-exercises splits by each sub-exercise's flag, one without by its own flag; the two sides always add up to the exercise's total points (77-83) |
| `RatedEntity.ExerciseOwnFlagIgnored` | server/src/database/entities/ratedEntity.entity.ts:92-105 | with sub-exercises, the exercise's own bonus flag and maximum play no part in its split |
| `RatedEntity.HandInTotalSplitsAll` | server/src/database/entities/ratedEntity.entity.ts:139-154 | the must-have and bonus sides of a hand-in add up to the total points of all its exercises |
| `RatedEntity.HandInTotalConcat` | server/src/database/entities/ratedEntity.entity.ts:142-154 | the split of a hand-in is the componentwise sum of its exercises' splits: splitting two lists together is adding their splits |
| `RatedEntity.GetPassedInformation` | server/src/database/entities/ratedEntity.entity.ts:179-204 | without a grading the student failed with 0 points; with one, the achieved points are the grading's and the student passed exactly when they over the must-have points reach the percentage needed; the total is the hand-in's split |
| `RatedEntity.PassedWithMustPoints` | server/src/database/entities/ratedEntity.entity.ts:198-203 | with must-have points, a graded student passes exactly when the points reach that share of them |
| `RatedEntity.PassedWithoutMustPoints` | server/src/database/entities/ratedEntity.entity.ts:198-203 | without must-have points the division is by zero, and a graded student passes exactly when the grading's points are positive |
| `ExamCriterion.InfosKeys` | server/src/module/scheincriteria/container/criterias/ScheinexamCriteria.ts:155-173 | there is an info entry for an id exactly when some exam has that id |
| `ExamCriterion.InfosLastWins` | server/src/module/scheincriteria/container/criterias/ScheinexamCriteria.ts:166-172 | the entry of an exam's id describes that exam when no later exam has the same id |
| `ExamCriterion.InfoState` | server/src/module/scheincriteria/container/criterias/ScheinexamCriteria.ts:156-172 | an exam's entry is PASSED exactly when the student passed it, holds the achieved points and the exam's must-have points as total, in points |
| `ExamCriterion.CheckAllExams` | server/src/module/scheincriteria/container/criterias/ScheinexamCriteria.ts:145-176 | the loop counts the passed exams, sums the achieved and the must-have points and records one entry per exam id |
| `ExamCriterion.ExamsPassedBounds` | server/src/module/scheincriteria/container/criterias/ScheinexamCriteria.ts:151-164 | at most every exam is passed, and all are exactly when each one is |
| `ExamCriterion.PointsTotalExcludesBonus` | server/src/module/scheincriteria/container/criterias/ScheinexamCriteria.ts:164 | the criterion's total counts must-have points only: with the bonus points it makes up the maxima of all exercises of all exams |
| `ExamCriterion.CheckCriteriaStatus` | server/src/module/scheincriteria/container/criterias/ScheinexamCriteria.ts:35-65 | the status reports the passed exams out of all exams, in exams; in the individual mode it is passed exactly when every exam is counted as passed, in the total mode exactly when all achieved over all must-have points reach the needed share |
| `ExamCriterion.IndividualModeAllPassed` | server/src/module/scheincriteria/container/criterias/ScheinexamCriteria.ts:50-51 | in the individual mode the criterion is passed exactly when every exam is passed, so also with no exams at all |
| `ExamCriterion.TotalModeNoExams` | server/src/module/scheincriteria/container/criterias/ScheinexamCriteria.ts:52-53 | in the total mode with no exams the points are 0 / 0, which never passes |
| `ExamCriterion.GetInformation` | server/src/module/scheincriteria/container/criterias/ScheinexamCriteria.ts:67-68 | the criterion's information always fails with "Method not implemented." |
| `GradingEntity.CheckHandIns` | server/src/database/entities/grading.entity.ts:159-169 | the check passes exactly when one of sheet, exam and short test is set; two or more is the multiple-hand-ins error, none the no-hand-in error |
| `GradingEntity.NewGrading` | server/src/database/entities/grading.entity.ts:85-93 | a grading is constructed exactly when one hand-in is set, with that hand-in, no exercise gradings, no students and additional points 0; otherwise the check's error |
| `GradingEntity.EntityId` | server/src/database/entities/grading.entity.ts:104-125 | the hand-in id is returned exactly when one hand-in is set, and it is the id of the one that is set; otherwise the check's error |
| `GradingEntity.NewGradingEntityId` | server/src/database/entities/grading.entity.ts:88-125 | a grading that could be constructed reports the id of the hand-in it was constructed for |
| `GradingEntity.SumPointsConcat` | server/src/database/entities/grading.entity.ts:98-102 | the sum of the exercise gradings' points splits over a concatenation |
| `GradingEntity.SumPointsPermutation` | server/src/database/entities/grading.entity.ts:98-102 | the grading's points do not depend on the order of its exercise gradings |
| `GradingEntity.PointsAddExercise` | server/src/database/entities/grading.entity.ts:95-102 | recording one more exercise grading raises the grading's points (additional points, 0 when unset, plus every exercise grading's points) by exactly its points |
| `GradingEntity.BelongsToTeam` | server/src/database/entities/grading.entity.ts:127-129 | a grading belongs to a team exactly when it has more than one student |
| `GradingEntity.TeamGradingIsShared` | server/src/database/entities/grading.entity.ts:127-137 | with distinct student ids, a grading belongs to a team exactly when two different students share it |
| `GradingEntity.IndexOf` | server/src/database/entities/grading.entity.ts:136 | the index search returns -1 exactly when the id is absent, else the first position holding it |
| `GradingEntity.BelongsToStudent` | server/src/database/entities/grading.entity.ts:131-137 | a grading belongs to a student exactly when the student is one of its students |
| `GradingEntity.GetExerciseGrading` | server/src/database/entities/grading.entity.ts:139-141 | the lookup finds nothing exactly when no exercise grading has the exercise's id, else the first one that has it |
| `GradingEntity.ToDTO` | server/src/database/entities/grading.entity.ts:143-157 | the client's copy has the grading's id, points, additional points, comment and team flag, and an exercise-grading entry for exactly the exercise ids present, holding the last exercise grading with that id |
| `GradingModel.SetWellFormed` | server/src/database/models/grading.model.ts:175-179 | setting a key keeps the map's insertion order consistent: a present key keeps its place, a new one goes last |
| `GradingModel.FromDistinctEntries` | server/src/database/models/grading.model.ts:94 | with distinct keys, `new Map(entries)` holds exactly the entries, in their order |
| `GradingModel.SumAtEntries` | server/src/database/models/grading.model.ts:39-41 | summing a map in insertion order over entries it holds one to one is summing those entries |
| `GradingModel.FromDistinctEntriesSum` | server/src/database/models/grading.model.ts:39-41 | with distinct keys, the values of `new Map(entries)` add up to the entries' values |
| `GradingModel.ComputeExercisePoints` | server/src/database/models/grading.model.ts:30-44 | an exercise grading's points are its additional points (0 when unset) plus its stored points without a sub-exercise map, else plus the sum of the map's values |
| `GradingModel.StoredPointsIgnored` | server/src/database/models/grading.model.ts:33-43 | once there is a sub-exercise map, the stored points play no part |
| `GradingModel.ExerciseFromDTO` | server/src/database/models/grading.model.ts:64-95 | the conversion fails exactly when the client gives neither non-zero points nor sub-exercise points (0 counting as absent); otherwise it keeps the comment and additional points, stores the points or 0, and has a sub-exercise map exactly when one was given |
| `GradingModel.ExerciseFromDTOPoints` | server/src/database/models/grading.model.ts:30-44 | a converted exercise grading is worth the additional points plus the sub-exercise points when given, else the given points |
| `GradingModel.FirstInvalid` | server/src/database/models/grading.model.ts:177-179 | the first exercise grading that cannot be converted: every one before it can be |
| `GradingModel.FirstInvalidAt` | server/src/database/models/grading.model.ts:177-179 | the first failing position is k exactly when everything before k converts and k does not |
| `GradingModel.ConvertedWellFormed` | server/src/database/models/grading.model.ts:175-179 | the new exercise-grading map is a well-formed map of well-formed exercise gradings |
| `GradingModel.ConvertExerciseGradings` | server/src/database/models/grading.model.ts:175-179 | the loop converts and sets the client's exercise gradings in order and stops at the first that cannot be converted |
| `GradingModel.GradingModel.constructor` | server/src/database/models/grading.model.ts:112-114 | a new grading document has no exercise gradings |
| `GradingModel.GradingModel.Points` | server/src/database/models/grading.model.ts:125-136 | the grading's points are its additional points (0 when unset) plus the points of each exercise grading |
| `GradingModel.GradingModel.UpdateFromDTO` | server/src/database/models/grading.model.ts:159-180 | the id is replaced when a grading id is given, comment and additional points are overwritten, and the exercise gradings are replaced wholesale by the converted ones; an exercise grading that cannot be converted raises the bad request, leaving those converted before it |
| `GradingModel.ConvertedDistinct` | server/src/database/models/grading.model.ts:175-179 | with distinct exercise ids, the new map holds each of the client's exercise gradings, converted, in order |
| `GradingModel.SumConvertedAgrees` | server/src/database/models/grading.model.ts:128-136 | summing the new map in order is summing the converted exercise gradings of the client |
| `GradingModel.UpdatedPoints` | server/src/database/models/grading.model.ts:128-180 | after an update that succeeds with distinct exercise ids, the grading is worth the client's additional points plus the client's exercise gradings, and nothing of the old exercise gradings |
| `StudentEntity.IndexOfDay` | server/src/database/entities/student.entity.ts:89 | the search returns the first attendance on the day, or -1 exactly when there is none |
| `StudentEntity.IndexOfEntity` | server/src/database/entities/student.entity.ts:187-196 | a found position is within the gradings; the search fails when it reaches a grading (or a target) whose hand-in id throws |
| `StudentEntity.IndexOfEntitySpec` | server/src/database/entities/student.entity.ts:187-196 | a found position is the first grading for the same hand-in, and every grading before it has a valid, different hand-in id; -1 exactly when every grading has a valid, different hand-in id; a failure carries the error of the first grading whose hand-in id throws, or of the target, with every grading before it valid and different |
| `StudentEntity.WithGradingSavesHandIn` | server/src/database/entities/student.entity.ts:116-131 | after saving a grading with a valid hand-in id, the search for that hand-in finds the saved grading |
| `StudentEntity.WithGradingOfInvalid` | server/src/database/entities/grading.entity.ts:109-110 | saving into no gradings stores the grading without asking for its hand-in id; saving a grading whose hand-in id throws into a non-empty list fails, as the getter throws when it is compared |
| `StudentEntity.WithAttendanceKeepsOnePerDay` | server/src/database/entities/student.entity.ts:79-96 | saving an attendance keeps at most one attendance per day; the day's attendance is then the saved one and every other day keeps its own |
| `StudentEntity.WithAttendanceSavesDay` | server/src/database/entities/student.entity.ts:88-96 | after saving, there is still one attendance per day and the saved one is the day's |
| `StudentEntity.WithAttendanceKeepsOtherDay` | server/src/database/entities/student.entity.ts:88-96 | saving an attendance does not change what is found on any other day |
| `StudentEntity.WithGradingKeepsOnePerHandIn` | server/src/database/entities/student.entity.ts:116-131 | when saving a grading succeeds, at most one grading per hand-in is kept |
| `StudentEntity.FindOnDay` | server/src/database/entities/student.entity.ts:98-107 | an attendance is found exactly when one is on the day, and it is one of the student's attendances on that day |
| `StudentEntity.Student.constructor` | server/src/database/entities/student.entity.ts:28-77 | a new student has the given data, a cake count of 0 and no attendances, gradings or presentation points |
| `StudentEntity.Student.SetAttendance` | server/src/database/entities/student.entity.ts:79-96 | the attendance replaces the one on its day or is appended; names, matriculation number, status, tutorial, cake count, gradings and presentation points stay, and one attendance per day is kept |
| `StudentEntity.Student.GetAttendance` | server/src/database/entities/student.entity.ts:98-107 | the attendance on the day, or none |
| `StudentEntity.Student.SetGrading` | server/src/database/entities/student.entity.ts:116-131 | succeeds exactly when the search for the grading's hand-in does; the grading then replaces the one for the same hand-in or is added, and one grading per hand-in is kept; on failure the search's error is returned and the gradings stay; names, matriculation number, status, tutorial, cake count, attendances and presentation points stay |
| `StudentEntity.Student.GetIndexOfGradingForSameEntity` | server/src/database/entities/student.entity.ts:179-196 | the loop returns what the search for the grading's hand-in returns: the first grading for the same hand-in, -1, or the error thrown by an invalid hand-in id |
| `StudentEntity.Student.GetGrading` | server/src/database/entities/student.entity.ts:133-147 | fails exactly when the search for the hand-in fails, with its error; none exactly when the search finds no grading; otherwise the grading found, whose hand-in id is the given one |
| `StudentEntity.Student.SetPresentationPoints` | server/src/database/entities/student.entity.ts:149-159 | the hand-in's presentation points are replaced; names, matriculation number, status, tutorial, cake count, attendances and gradings stay |
| `StudentEntity.Student.GetPresentationPoints` | server/src/database/entities/student.entity.ts:161-170 | the hand-in's presentation points when there are any, else none |
| `StudentEntity.PresentationPointsGetAfterSet` | server/src/database/entities/student.entity.ts:157-170 | after saving presentation points for a hand-in, reading them gives those points and every other hand-in keeps its own |
| `TutorialModel.IsoDate` | server/src/database/models/tutorial.model.ts:41 | a date has an ISO form exactly when it is valid, and then it is its day |
| `TutorialModel.DateKey` | server/src/database/models/tutorial.model.ts:175-183 | the key of a valid date is its day; a date without an ISO form raises the not-parseable error, naming the date as it writes itself ("Invalid DateTime") |
| `TutorialModel.StoredDates` | server/src/database/models/tutorial.model.ts:39-43 | the stored dates are no more than the given ones |
| `TutorialModel.StoredDatesAreValidDates` | server/src/database/models/tutorial.model.ts:35-43 | a day is stored exactly when it is among the given valid dates, and reading the stored dates back gives the valid dates in order: dates without an ISO form are dropped |
| `TutorialModel.Dates` | server/src/database/models/tutorial.model.ts:35-37 | reading the stored dates gives one valid date per stored day |
| `TutorialModel.DatesAppend` | server/src/database/models/tutorial.model.ts:35-43 | storing one more date and reading back appends it when it is valid and nothing otherwise |
| `TutorialModel.WithoutSubstitute` | server/src/database/models/tutorial.model.ts:116-122 | removing the substitute of a day without one changes nothing |
| `TutorialModel.SubstituteOn` | server/src/database/models/tutorial.model.ts:132-134 | a day's substitute is present exactly when one is saved for it |
| `TutorialModel.SubstituteAfterChange` | server/src/database/models/tutorial.model.ts:97-134 | after setting, a day's substitute is the one set last; after removing there is none; other days are untouched by both |
| `TutorialModel.SubstituteOverridden` | server/src/database/models/tutorial.model.ts:97-107 | setting a substitute on a day that has one overrides it |
| `TutorialModel.Tutorial.constructor` | server/src/database/models/tutorial.model.ts:17-24 | a new tutorial has the given slot, tutor and correctors, its dates stored, and no students, teams or substitutes |
| `TutorialModel.Tutorial.GetDates` | server/src/database/models/tutorial.model.ts:35-37 | the tutorial's dates are valid dates, one per stored day |
| `TutorialModel.Tutorial.SetDates` | server/src/database/models/tutorial.model.ts:39-43 | the stored dates become the given ones without those lacking an ISO form; nothing else changes |
| `TutorialModel.Tutorial.SetSubstitute` | server/src/database/models/tutorial.model.ts:97-107 | the day's substitute becomes the user, overriding any other; an invalid date is the key error and changes nothing |
| `TutorialModel.Tutorial.RemoveSubstitute` | server/src/database/models/tutorial.model.ts:109-122 | the day's substitute is removed, and nothing changes when there is none; an invalid date is the key error |
| `TutorialModel.Tutorial.GetSubstitute` | server/src/database/models/tutorial.model.ts:124-134 | the day's substitute or none; an invalid date is the key error |
| `TeamService.AllUsedLeavesNext` | server/src/module/team/team.service.ts:245 | when n teams use every number 1..n, none of them uses n + 1, so the fallback number is free |
| `TeamService.FirstAvailableTeamNo` | server/src/module/team/team.service.ts:220-246 | the new team number is at least 1 and at most the number of teams plus 1, no team uses it, and every smaller positive number is in use: the first hole, else the next number |
| `TeamService.AssertAllStudentsInSameTutorial` | server/src/module/team/team.service.ts:248-266 | the students are accepted, an empty list included, exactly when every one is in the tutorial; otherwise the bad request with the source's message |
| `TeamService.UngradedExactly` | server/src/module/team/team.service.ts:167-173 | a member gets the grading exactly when the member has no grading for the hand-in |
| `TeamService.SetGrading` | server/src/module/team/team.service.ts:150-178 | the grading's students become its old students followed by every member without a grading for the hand-in, in team order; it is saved exactly when it then has students |
| `TutorialService.Weekday` | server/src/module/tutorial/tutorial.service.ts:302-325 | a weekday is a number from 1 (Monday) to 7 (Sunday) |
| `TutorialService.GroupedExactly` | server/src/module/tutorial/tutorial.service.ts:302-325 | every day of the interval lies in the group of its weekday and in no other, each group is in increasing order, and a weekday is a key only when some day of the interval has it |
| `TutorialService.DatesInIntervalGroupedByWeekday` | server/src/module/tutorial/tutorial.service.ts:311-325 | an interval whose end is before its start is invalid and walking it fails; otherwise the cursor loop groups the days from start through end by weekday |
| `TutorialService.IndexOfDay` | server/src/module/tutorial/tutorial.service.ts:345 | the search returns the first date on the day, or -1 exactly when there is none |
| `TutorialService.RemoveDay` | server/src/module/tutorial/tutorial.service.ts:345-349 | removing an excluded day takes away one date on that day when there is one, and nothing else |
| `TutorialService.WithoutExcludedCounts` | server/src/module/tutorial/tutorial.service.ts:343-351 | each excluded day takes away at most one date on that day: as multisets, the result is the dates minus the excluded days |
| `TutorialService.WithoutExcludedAppend` | server/src/module/tutorial/tutorial.service.ts:343-351 | removing the days of two lists of exclusions is removing those of the first, then those of the second |
| `TutorialService.RemoveDays` | server/src/module/tutorial/tutorial.service.ts:344-350 | the inner loop removes the days of one exclusion one after the other |
| `TutorialService.RemoveExcludedDates` | server/src/module/tutorial/tutorial.service.ts:327-354 | the copy of the dates loses the excluded days one by one, at most one date each, and the given dates stay as they are |
| `TutorialService.DecimalString` | server/src/module/tutorial/tutorial.service.ts:250 | a number's decimal form has at least one digit |
| `TutorialService.PadStartTwo` | server/src/module/tutorial/tutorial.service.ts:250 | padding at the start with '0' gives at least two characters and cuts nothing |
| `TutorialService.SlotDigits` | server/src/module/tutorial/tutorial.service.ts:248-250 | slot numbers 1 to 99 become exactly two digits after the prefix; larger ones keep all their digits |
| `TutorialService.Numbered` | server/src/module/tutorial/tutorial.service.ts:247-259 | the tutorials of one entry are numbered on from the counter, each with the entry's dates |
| `TutorialService.GeneratedUpTo` | server/src/module/tutorial/tutorial.service.ts:240-262 | no generated tutorial is without dates |
| `TutorialService.NumberTutorials` | server/src/module/tutorial/tutorial.service.ts:247-259 | the inner loop numbers the tutorials of one entry on from its weekday's counter and advances only that counter, by the amount |
| `TutorialService.CreateMany` | server/src/module/tutorial/tutorial.service.ts:224-265 | a last day before the first day fails, as the invalid interval does; otherwise, for each entry in turn, its amount of tutorials on its weekday's days minus the excluded days, slots numbered by a counter per weekday that goes on from entry to entry; an entry without days left generates nothing |
| `TutorialService.CheckDeletable` | server/src/module/tutorial/tutorial.service.ts:142-147 | a tutorial is refused for deletion exactly when it has students, with the source's message |
| `TutorialService.AssertTutorialSlot` | server/src/module/tutorial/tutorial.service.ts:372-378 | a slot is refused exactly when an existing tutorial has it, with the source's message |
| `TutorialService.AssertTutorHasTutorRole` | server/src/module/tutorial/tutorial.service.ts:356-360 | a tutor is refused exactly when there is one without the TUTOR role |
| `TutorialService.AssertCorrectorsHaveCorrectorRole` | server/src/module/tutorial/tutorial.service.ts:362-370 | the correctors are accepted exactly when every one has the CORRECTOR role |
| `TutorialService.SubstitutesAfterDays` | server/src/module/tutorial/tutorial.service.ts:179-203 | when every date is valid, each given day ends with the tutor as substitute, or with none when there is no tutor, and every other day keeps its substitute |
| `TutorialService.StopsAtInvalid` | server/src/module/tutorial/tutorial.service.ts:197-202 | a date without an ISO form raises the key error, so the dates after it change nothing |
| `TutorialService.SetTutorialSubstitute` | server/src/module/tutorial/tutorial.service.ts:179-206 | a tutor without the TUTOR role is refused and changes nothing; otherwise the dates are handled in turn, succeeding exactly when all are valid; the tutorial's other fields stay |
| `TutorialServiceJava.Tutorial.constructor` | src/main/java/de/unistuttgart/iste/rss/tutormanagementsystem/service/TutorialService.java:50-52 | a new tutorial holds the given slot, tutor, dates, times and correctors, and starts with no students and no substitutes |
| `TutorialServiceJava.DeleteTutorial` | src/main/java/de/unistuttgart/iste/rss/tutormanagementsystem/service/TutorialService.java:64-71 | deleting is refused with the not-empty error exactly when the tutorial still has students |
| `TutorialServiceJava.UpdateTutorial` | src/main/java/de/unistuttgart/iste/rss/tutormanagementsystem/service/TutorialService.java:73-95 | the updated tutorial is a new object with the old id, the slot, dates and times of the update, the looked-up tutor and correctors, no students, and every substitute of the old tutorial |
| `TutorialServiceJava.WithoutUser` | src/main/java/de/unistuttgart/iste/rss/tutormanagementsystem/service/TutorialService.java:150-156 | a date keeps its substitute exactly when that substitute is not the given user, and kept dates keep their substitute |
| `TutorialServiceJava.OnDates` | src/main/java/de/unistuttgart/iste/rss/tutormanagementsystem/service/TutorialService.java:158-160 | the given user is the substitute on exactly the given dates |
| `TutorialServiceJava.SubstitutesExactlyGiven` | src/main/java/de/unistuttgart/iste/rss/tutormanagementsystem/service/TutorialService.java:146-163 | after the update the user substitutes on exactly the given dates, and every other date keeps the substitute it had |
| `TutorialServiceJava.RemoveSubstituteDatesOf` | src/main/java/de/unistuttgart/iste/rss/tutormanagementsystem/service/TutorialService.java:150-156 | removing while walking a copy of the substitutes drops exactly the user's dates and changes nothing else of the tutorial |
| `TutorialServiceJava.SetSubstituteOfTutorial` | src/main/java/de/unistuttgart/iste/rss/tutormanagementsystem/service/TutorialService.java:146-163 | the user's old substitute dates are dropped, the given dates are assigned to the user, the user then substitutes on exactly those dates, and the rest of the tutorial is unchanged |
| `TutorialServiceJava.GetSubstituteTutorialsOfUser` | src/main/java/de/unistuttgart/iste/rss/tutormanagementsystem/service/TutorialService.java:174-194 | a tutorial is a key of the response exactly when the user substitutes in it on some date, and its list holds each of those dates once and no other |
| `TutorialServiceJava.DatesOfTutorial` | src/main/java/de/unistuttgart/iste/rss/tutormanagementsystem/service/TutorialService.java:180-188 | the dates collected for one tutorial are distinct and are exactly the dates on which the user substitutes |
| `StudentsAdminView.PadStart` | client/src/view/studentmanagement/AllStudentsAdminView.tsx:78 | padding keeps the ending at the end, fills in front only with the pad character, and reaches the width unless the string is already longer |
| `StudentsAdminView.OthersExactly` | client/src/view/studentmanagement/AllStudentsAdminView.tsx:58 | a student is among the others exactly when it is in the list and has a different id |
| `StudentsAdminView.FirstUniqueLength` | client/src/view/studentmanagement/AllStudentsAdminView.tsx:61-80 | the length found is the smallest ending length below the number's length that no other student shares; none is found exactly when no such length exists |
| `StudentsAdminView.ShortenedToFirstUniqueEnding` | client/src/view/studentmanagement/AllStudentsAdminView.tsx:54-83 | when some ending shorter than the number tells the student apart, the result is the shortest such ending padded in front with '*' to seven characters |
| `StudentsAdminView.ShortenedFallsBackToFullNumber` | client/src/view/studentmanagement/AllStudentsAdminView.tsx:82 | when no ending shorter than the number tells the student apart, the result is the full number |
| `StudentsAdminView.AloneShortensToLastDigit` | client/src/view/studentmanagement/AllStudentsAdminView.tsx:54-83 | a student alone in the list is shown as six '*' and the last digit of the number |
| `StudentsAdminView.GetShortenedMatrNo` | client/src/view/studentmanagement/AllStudentsAdminView.tsx:54-83 | the loop over ever longer endings returns the shortened number defined by the shortest unique ending, or the full number |
| `StudentsAdminView.IsUniqueEnding` | client/src/view/studentmanagement/AllStudentsAdminView.tsx:63-75 | the inner loop answers true exactly when no other student's number has the same characters at the same positions |
| `UserForm.LowerAll` | client-cra/src/components/forms/UserForm.tsx:57 | lowering keeps the length and lowers each character in place |
| `UserForm.CharAt` | client-cra/src/components/forms/UserForm.tsx:56 | taking a character gives that character inside the string and the empty string outside it |
| `UserForm.UsernameShape` | client-cra/src/components/forms/UserForm.tsx:54-60 | the suggested username has at most eight lower-case characters: up to six from the last name, then the first and last character of a non-empty first name |
| `UserForm.LowerAllIdempotent` | client-cra/src/components/forms/UserForm.tsx:57 | lowering a lowered string changes nothing |
| `UserForm.TemporaryPasswordOptionsAccepted` | client-cra/src/components/forms/UserForm.tsx:45-52 | the temporary password's options (16 characters, numbers, similar characters excluded, strict) always give a generator: three classes pass the strict check as written, since 3 is less than 16, and the pool is not empty |
| `UserForm.Ids` | client-cra/src/components/forms/UserForm.tsx:80-81 | the ids list has one entry per tutorial, in order |
| `UserForm.GetInitialFormState` | client-cra/src/components/forms/UserForm.tsx:62-86 | a new user starts empty with the TUTOR role and the temporary password; an edited user starts with its own data, its tutorials by id, and an empty password |
| `PasswordGenerator.DefaultOptions` | client/src/util/password-generator/PasswordGenerator.ts:106-117 | without given options the generator uses length 10, lower- and uppercase letters, no numbers, no symbols, similar characters kept, not strict |
| `PasswordGenerator.GivenOptionsKept` | client/src/util/password-generator/PasswordGenerator.ts:106-117 | every given option overrides its default |
| `PasswordGenerator.ClassCount` | client/src/util/password-generator/PasswordGenerator.ts:176-180 | at most four character classes are enabled |
| `PasswordGenerator.AssertStrictMatchesLengthAsWritten` | client/src/util/password-generator/PasswordGenerator.ts:174-188 | as written, a strict generator is refused exactly when the number of enabled classes is at least the length, with the message naming that number |
| `PasswordGenerator.AssertStrictMatchesLength` | client/src/util/password-generator/PasswordGenerator.ts:174-188 | corrected: a strict generator is refused exactly when more classes are enabled than the length allows, with the message naming that number |
| `PasswordGenerator.RemoveSimilar` | client/src/util/password-generator/PasswordGenerator.ts:160-162 | a character survives exactly when it was in the pool and is not one of the similar characters |
| `PasswordGenerator.GeneratePool` | client/src/util/password-generator/PasswordGenerator.ts:140-165 | the pool is refused with the empty-pool error exactly when no enabled class contributes a character |
| `PasswordGenerator.PoolCharacters` | client/src/util/password-generator/PasswordGenerator.ts:140-165 | a character is in the pool exactly when an enabled class has it and it is not an excluded similar character |
| `PasswordGenerator.EmptyPoolIffNoClass` | client/src/util/password-generator/PasswordGenerator.ts:156-158 | with characters in every class, the pool is refused exactly when no class is enabled |
| `PasswordGenerator.LoadRules` | client/src/util/password-generator/PasswordGenerator.ts:122-135 | one rule per enabled class and no other, as many as the classes counted for the strict check |
| `PasswordGenerator.Representatives` | client/src/util/password-generator/PasswordGenerator.ts:122-135 | one character per rule, each from its rule's class and not a similar character |
| `PasswordGenerator.RepresentativeInPool` | client/src/util/password-generator/PasswordGenerator.ts:140-165 | each rule's representative character is in the pool |
| `PasswordGenerator.StrictWitness` | client/src/util/password-generator/PasswordGenerator.ts:174-188 | for any length at least the number of classes, a password of that length exists whose first characters are the representatives |
| `PasswordGenerator.StrictWitnessInPool` | client/src/util/password-generator/PasswordGenerator.ts:43-58 | that password uses only characters from the pool |
| `PasswordGenerator.StrictWitnessFitsRules` | client/src/util/password-generator/PasswordGenerator.ts:52-53 | that password meets every rule |
| `PasswordGenerator.StrictLengthSatisfiable` | client/src/util/password-generator/PasswordGenerator.ts:174-188 | whenever the corrected check accepts a strict generator, a password of the configured length from the pool meets every rule, so strict generation can succeed |
| `PasswordGenerator.AsWrittenRejectsSatisfiableLength` | client/src/util/password-generator/PasswordGenerator.ts:182 | two characters from lower- and uppercase letters are refused as written though a password meeting both rules exists |
| `PasswordGenerator.PoolNotEmpty` | client/src/util/password-generator/PasswordGenerator.ts:156-158 | an accepted pool has at least one character, so drawing from it is always possible |
| `PasswordGenerator.Generator.constructor` | client/src/util/password-generator/PasswordGenerator.ts:25-36 | the generator keeps its options, pool and rules, and starts with a freshly filled cache read from the front |
| `PasswordGenerator.Generator.Create` | client/src/util/password-generator/PasswordGenerator.ts:25-36 | creating a generator fails exactly when the strict check as written refuses (a strict generator with at least as many classes as characters) or the pool is empty, the strict check's error first; otherwise the generator is valid, has the completed options and its cache was filled once |
| `PasswordGenerator.Generator.GenerateNewRandomCache` | client/src/util/password-generator/PasswordGenerator.ts:93-96 | the cache holds the random source's next batch and is read from the front again |
| `PasswordGenerator.Generator.GetNextRandomValue` | client/src/util/password-generator/PasswordGenerator.ts:80-86 | an exhausted cache is refilled and its first value returned; otherwise the next cached value is returned and the cache is unchanged |
| `PasswordGenerator.Generator.RandomNumber` | client/src/util/password-generator/PasswordGenerator.ts:67-69 | the random number is below the given maximum |
| `PasswordGenerator.Generator.GenerateOnce` | client/src/util/password-generator/PasswordGenerator.ts:44-50 | the password has the configured length and every character comes from the pool |
| `PasswordGenerator.Generator.Generate` | client/src/util/password-generator/PasswordGenerator.ts:43-61 | a non-strict generator always yields a password; a yielded password has the configured length, uses the pool, and in strict mode meets every rule |
| `Routing.FirstDrawerViolation` | client-cra/src/routes/Routing.types.tsx:267-277 | no error exactly when every part passes the drawer checks; an error is the one of some part of the path |
| `Routing.DrawerRouteAcceptedIff` | client-cra/src/routes/Routing.types.tsx:258-277 | a drawer route passes exactly when each parameter is optional or 'tutorialId', and 'tutorialId' appears only in a tutorial-related route |
| `Routing.CheckIfTutorialIdParamIsPresent` | client-cra/src/routes/Routing.types.tsx:249-256 | the answer is true exactly when some part is the 'tutorialId' parameter |
| `Routing.CheckIfValidDrawerRoute` | client-cra/src/routes/Routing.types.tsx:267-277 | the check passes exactly when no part violates the drawer rules, and otherwise reports the first violation in path order |
| `Routing.AssertOptions` | client-cra/src/routes/Routing.types.tsx:228-240 | the options pass exactly when a tutorial-related route has 'tutorialId' and a drawer route passes the drawer checks; a tutorial-related route without 'tutorialId' gets that error, and any other failure is the first drawer check that fails |
| `Routing.NewCustomRoute` | client-cra/src/routes/Routing.types.tsx:153-166 | a route is built exactly when its options pass, and each absent option takes its default: no icon, every role, every flag false; a failure is the missing 'tutorialId' error or else the first drawer check that fails |
| `Routing.DefaultRoute` | client-cra/src/routes/Routing.types.tsx:153-166 | a route without optional settings is always built |
| `Routing.AcceptedDrawerRoute` | client-cra/src/routes/Routing.types.tsx:307-320 | a drawer route that is built has only optional parameters unless it is tutorial-related, and a tutorial-related one has 'tutorialId' |
| `Routing.HasOnlyOptionalParams` | client-cra/src/routes/Routing.types.tsx:185-193 | the answer is true exactly when every parameter is optional |
| `Routing.IsTutorialRelatedDrawerRoute` | client-cra/src/routes/Routing.types.tsx:200-216 | the answer is true exactly when the route is in the drawer and a parameter is required exactly when it is 'tutorialId' |
| `Routing.Combine` | client-cra/src/routes/Routing.types.tsx:143-151 | the combined route's path is the base route's parts followed by the extension's, and it is built exactly when the given options with that path pass; title, icon, roles (every role by default) and flags (false by default) come from the options, as for a new route; a failure is the missing 'tutorialId' error or else the first drawer check that fails on the combined path |
| `IliasMapping.NamesInData` | client-cra/src/pages/import-short-tests/components/map-students-ilias-names/IliasMapping.context.tsx:95 | the names of the data are exactly the non-empty names of the column |
| `IliasMapping.NamesInDataCounts` | client-cra/src/pages/import-short-tests/components/map-students-ilias-names/IliasMapping.context.tsx:95 | every non-empty name of the column is kept as often as it occurs there |
| `IliasMapping.NamesInDataAppend` | client-cra/src/pages/import-short-tests/components/map-students-ilias-names/IliasMapping.context.tsx:95 | the filter keeps the column's order: the names of two pieces of a column are the names of the first followed by those of the second |
| `IliasMapping.FindStudent` | client-cra/src/pages/import-short-tests/components/map-students-ilias-names/IliasMapping.context.tsx:99 | a found student is in the list and has the Ilias name; none is found exactly when no student has it |
| `IliasMapping.Unmatched` | client-cra/src/pages/import-short-tests/components/map-students-ilias-names/IliasMapping.context.tsx:97-107 | the names without a student are exactly the names of the data that no student has as Ilias name |
| `IliasMapping.UnmatchedCounts` | client-cra/src/pages/import-short-tests/components/map-students-ilias-names/IliasMapping.context.tsx:97-107 | every name without a student is kept as often as it occurs in the data |
| `IliasMapping.UnmatchedAppend` | client-cra/src/pages/import-short-tests/components/map-students-ilias-names/IliasMapping.context.tsx:97-107 | the unmatched names keep the data's order: those of two pieces are those of the first followed by those of the second |
| `IliasMapping.MappingOf` | client-cra/src/pages/import-short-tests/components/map-students-ilias-names/IliasMapping.context.tsx:97-107 | the mapping has an entry exactly for each name of the data that some student has as Ilias name |
| `IliasMapping.WithoutResult` | client-cra/src/pages/import-short-tests/components/map-students-ilias-names/IliasMapping.context.tsx:109-115 | the students without a result are exactly those whose Ilias name is absent or not among the names |
| `IliasMapping.NamesPartitioned` | client-cra/src/pages/import-short-tests/components/map-students-ilias-names/IliasMapping.context.tsx:97-107 | each name of the data is either mapped, to a student with that Ilias name, or without a student, never both |
| `IliasMapping.LessEqTotal` | client-cra/src/pages/import-short-tests/components/map-students-ilias-names/IliasMapping.context.tsx:117 | any two names are comparable in the order used to sort them |
| `IliasMapping.Insert` | client-cra/src/pages/import-short-tests/components/map-students-ilias-names/IliasMapping.context.tsx:117 | inserting a name adds exactly that name to the sorted names |
| `IliasMapping.InsertSorted` | client-cra/src/pages/import-short-tests/components/map-students-ilias-names/IliasMapping.context.tsx:117 | inserting into sorted names keeps them sorted |
| `IliasMapping.SortNames` | client-cra/src/pages/import-short-tests/components/map-students-ilias-names/IliasMapping.context.tsx:117 | sorting keeps the same names, as many times each |
| `IliasMapping.SortNamesSorted` | client-cra/src/pages/import-short-tests/components/map-students-ilias-names/IliasMapping.context.tsx:117 | the sorted names are in order and a permutation of the input |
| `IliasMapping.DifferenceById` | client-cra/src/pages/import-short-tests/components/map-students-ilias-names/IliasMapping.context.tsx:164-170 | a student is kept exactly when it is in the list and its id is not among the removed ids |
| `IliasMapping.MappingOfStep` | client-cra/src/pages/import-short-tests/components/map-students-ilias-names/IliasMapping.context.tsx:98-106 | one more name adds its entry when it has a student and leaves the mapping unchanged otherwise |
| `IliasMapping.MapNames` | client-cra/src/pages/import-short-tests/components/map-students-ilias-names/IliasMapping.context.tsx:97-107 | the loop over the names yields the names without a student, the students found, and the mapping, each as defined on the whole list |
| `IliasMapping.StudentsWithoutResult` | client-cra/src/pages/import-short-tests/components/map-students-ilias-names/IliasMapping.context.tsx:109-115 | the loop over the students yields exactly the students without a result, in order |
| `IliasMapping.MappingContext.constructor` | client-cra/src/pages/import-short-tests/components/map-students-ilias-names/IliasMapping.context.tsx:78-81 | the context starts with an empty mapping and empty lists |
| `IliasMapping.MappingContext.ExposedStudentsWithoutResult` | client-cra/src/pages/import-short-tests/components/map-students-ilias-names/IliasMapping.context.tsx:164-168 | the exposed students without a result are those not mapped to any name by hand either |
| `IliasMapping.MappingContext.Value` | client-cra/src/pages/import-short-tests/components/map-students-ilias-names/IliasMapping.context.tsx:170 | the value is the students that no name of the data was mapped to |
| `IliasMapping.MappingContext.Compute` | client-cra/src/pages/import-short-tests/components/map-students-ilias-names/IliasMapping.context.tsx:84-125 | recomputing sets the mapping, the names without a student (sorted), the students found and the students without a result from the data's non-empty names |
| `IliasMapping.MappingContext.GetMapping` | client-cra/src/pages/import-short-tests/components/map-students-ilias-names/IliasMapping.context.tsx:147-149 | a student is returned exactly when the name is mapped, and it is the mapped student |
| `IliasMapping.MappingContext.AddMapping` | client-cra/src/pages/import-short-tests/components/map-students-ilias-names/IliasMapping.context.tsx:127-145 | the name then maps to the student, other entries stay or are the student's old name, and a one-to-one mapping without an empty name stays one-to-one |
| `IliasMapping.MappingContext.RemoveMapping` | client-cra/src/pages/import-short-tests/components/map-students-ilias-names/IliasMapping.context.tsx:151-157 | exactly the name's entry is removed, and a one-to-one mapping stays one-to-one |
| `IliasMapping.ComputedMappingInjective` | client-cra/src/pages/import-short-tests/components/map-students-ilias-names/IliasMapping.context.tsx:97-107 | with distinct student ids, the computed mapping never maps two names to the same student |
| `TutorialForm.WeeklyFromClosedForm` | client/src/components/forms/TutorialForm.tsx:118-123 | the dates from a day on are that day plus whole weeks, as many as fit up to the end date |
| `TutorialForm.WeeklyDatesShape` | client/src/components/forms/TutorialForm.tsx:116-126 | the weekly dates begin with the start date even past the end date, step by one week, stay within the end date after the first, and the next week would be past it |
| `TutorialForm.WeeklyDatesUnique` | client/src/components/forms/TutorialForm.tsx:116-126 | any sequence of that shape is the weekly dates, so the shape determines the result |
| `TutorialForm.GetAllWeeklyDatesBetween` | client/src/components/forms/TutorialForm.tsx:116-126 | the loop that adds a week until past the end date yields exactly the weekly dates |
| `TutorialForm.Insert` | client/src/components/forms/TutorialForm.tsx:145 | inserting a date adds exactly that date to the dates |
| `TutorialForm.InsertSorted` | client/src/components/forms/TutorialForm.tsx:145 | inserting into sorted dates keeps them sorted |
| `TutorialForm.SortDates` | client/src/components/forms/TutorialForm.tsx:145 | sorting keeps the same dates, as many times each |
| `TutorialForm.SortDatesSorted` | client/src/components/forms/TutorialForm.tsx:145 | the sorted dates are in order and a permutation of the tutorial's dates |
| `TutorialForm.GetInitialTutorialFormValues` | client/src/components/forms/TutorialForm.tsx:128-159 | a new tutorial starts empty with today as start and end date and now as start and end time; an edited tutorial keeps its slot, times and correctors and its tutor's id or the empty string |
| `TutorialForm.InitialDatesAreEarliestAndLatest` | client/src/components/forms/TutorialForm.tsx:145-157 | for an edited tutorial, the selected dates are its dates in order, the start date is its earliest date and the end date its latest, or today for both without dates |
| `TutorialForm.SortedEnds` | client/src/components/forms/TutorialForm.tsx:150-153 | the first of sorted dates is the earliest of the dates and the last the latest |
| `Settings.SessionTimeout` | server/src/module/settings/settings.static.ts:76-86 | the configured session timeout is returned when there is one, and 120 minutes otherwise |
| `JsStrings.Substr` | server/src/module/settings/settings.static.ts:105 | `substr`, as the path prefix getter and the admin view's shortened numbers (client/src/view/studentmanagement/AllStudentsAdminView.tsx:62) use it: never longer than the string or than a non-negative length; empty for a length that is not positive or a start at or past the end; the slice of the given length inside the string, and the rest of the string when the length reaches past its end |
| `Settings.ReplaceFirstAbsent` | server/src/module/settings/settings.static.ts:122 | replacing the first "//" leaves a string without "//" unchanged |
| `Settings.ReplaceFirstAfter` | server/src/module/settings/settings.static.ts:122 | replacing the first "//" after a part without "//" and not ending in '/' collapses exactly that "//" into one '/' |
| `Settings.PathPrefixAbsent` | server/src/module/settings/settings.static.ts:95-100 | there is no path prefix exactly when none is configured or it is empty, for the getter as written and for the corrected one |
| `Settings.PathPrefixStrips` | server/src/module/settings/settings.static.ts:88-106 | the corrected prefix is the configured one with one leading '/' and one trailing '/' removed where present, and it ends with '/' only when the configured one ends with "//" |
| `Settings.PathPrefixWithoutLeadingSlash` | server/src/module/settings/settings.static.ts:102-105 | without a leading '/', the getter as written agrees with the corrected one and removes one trailing '/' |
| `Settings.PathPrefixAgreement` | server/src/module/settings/settings.static.ts:102-105 | the getter as written differs from the corrected one exactly on prefixes of two or more characters with a '/' at both ends |
| `Settings.PathPrefixKeepsTrailingSlash` | server/src/module/settings/settings.static.ts:102-105 | as written, "/foo/" gives "foo/", where the documented behaviour gives "foo" |
| `Settings.ApiPrefixDefault` | server/src/module/settings/settings.static.ts:118-126 | the API prefix, built from the path prefix getter as written, is "api" without a path prefix (unset, empty or "/") |
| `Settings.ApiPrefixOfJoins` | server/src/module/settings/settings.static.ts:122 | joining a path prefix without "//" and without a trailing '/' to "api" leaves nothing to collapse: the result is the prefix followed by "/api" |
| `Settings.ApiPrefixJoins` | server/src/module/settings/settings.static.ts:94-126 | for a configured prefix without "//" that is more than a lone '/', the API prefix that getAPIPrefix computes from the getter as written is the documented path prefix (one leading and one trailing '/' stripped) followed by "/api" |
| `Settings.ApiPrefixHidesTrailingSlash` | server/src/module/settings/settings.static.ts:118-126 | for a prefix without "//", the API prefix built from the getter as written equals the one built from the corrected getter, so the slash bug does not reach the API path |
| `Settings.ApiPrefixKeepsDoubleSlash` | server/src/module/settings/settings.static.ts:94-126 | a prefix ending in "//" does reach it: "/foo//" gives the API prefix "foo//api", where the corrected getter would give "foo/api", because only the first "//" is collapsed |
| `Settings.Tabs` | server/src/module/settings/settings.static.ts:243-247 | the indentation consists of exactly as many tab characters as the depth |
| `Settings.TabsFor` | server/src/module/settings/settings.static.ts:243-247 | the loop that appends one tab per level yields that indentation |
| `Settings.StringForError` | server/src/module/settings/settings.static.ts:240-266 | the loops and the recursion build exactly the error text defined for the error and its depth |
| `Settings.ConstraintLines` | server/src/module/settings/settings.static.ts:257-259 | the loop yields one line per constraint, in order |
| `Settings.ErrorTextLines` | server/src/module/settings/settings.static.ts:240-266 | with single-line names and messages, the text has one line below the header per constraint (or one "Unknown error"), and each nested error adds its own header line and lines |
| `Settings.ChildBlockLines` | server/src/module/settings/settings.static.ts:252-254 | each nested error adds one line for its header and then its own lines |
| `Settings.ChildrenTextLines` | server/src/module/settings/settings.static.ts:251-254 | the nested errors together add the sum of their lines |
| `Settings.ConstraintsTextLines` | server/src/module/settings/settings.static.ts:256-259 | the constraints add exactly one line each |
| `Settings.CountNewlinesAppend` | server/src/module/settings/settings.static.ts:253 | the lines of joined texts add up |
| `Settings.NestedDepth` | server/src/module/settings/settings.static.ts:252-254 | each nested error appears in its parent's text, after the earlier siblings and on a new line, as its own text one level deeper |
| `Settings.ChildrenTextSplit` | server/src/module/settings/settings.static.ts:252-254 | the nested errors' text splits at any child into the blocks before it and the blocks from it on |
| `UserService.DoesUserWithUsernameExist` | server/src/module/user/user.service.ts:455-474 | the answer is true exactly when some user other than the one being updated (any user, on creation) has the username |
| `UserService.CheckUserDTO` | server/src/module/user/user.service.ts:533-550 | the data passes exactly when the username is free, a user with tutorials has the TUTOR role and one with tutorials to correct the CORRECTOR role; a taken username gives the duplicate-username error first |
| `UserService.CheckUser` | server/src/module/user/user.service.ts:533-550 | running the checks with the username search gives the outcome defined by the checks |
| `UserService.AdminCount` | server/src/module/user/user.service.ts:566 | the number of admins is at most the number of users |
| `UserService.LastAdmin` | server/src/module/user/user.service.ts:566-568 | for an admin, at most one admin exists exactly when no other user is an admin |
| `UserService.NoAdmins` | server/src/module/user/user.service.ts:566 | there are no admins exactly when no user has the ADMIN role |
| `UserService.AssertUserIsChangeable` | server/src/module/user/user.service.ts:563-572 | an update is refused, with ERR_REMOVE_LAST_ADMIN_ROLE, exactly when it takes the ADMIN role from an admin while at most one admin exists |
| `UserService.AssertUserIsDeletable` | server/src/module/user/user.service.ts:584-594 | deleting is refused, with ERR_DELETE_LAST_ADMIN, exactly when the user is an admin and at most one admin exists |
| `UserService.AdminChecksKeepAnAdmin` | server/src/module/user/user.service.ts:552-594 | an admin may be deleted, or lose the ADMIN role, only when another admin remains |
| `UserService.FirstMissing` | server/src/module/user/user.service.ts:515-517 | no tutorial is reported missing exactly when all listed ones exist; a reported one is listed and does not exist |
| `UserService.WithNewUser` | server/src/module/user/user.service.ts:428-446 | no tutorial appears or vanishes; the listed tutorials get the new user as tutor, the listed tutorials to correct get it appended to their correctors, and the rest stay |
| `UserService.CreateOutcome` | server/src/module/user/user.service.ts:389-419 | creating one user succeeds exactly when its data passes the checks and all its tutorials exist, and the user then carries the given data and the fresh id |
| `UserService.CreateAll` | server/src/module/user/user.service.ts:121-139 | after trying each user, the store holds the old users followed by the created ones, and each user was either created or gave one error line |
| `UserService.CreatedIds` | server/src/module/user/user.service.ts:121-139 | every created user carries one of the fresh ids |
| `UserService.Without` | server/src/module/user/user.service.ts:141 | every user whose id is not among the removed ones stays |
| `UserService.WithoutAppend` | server/src/module/user/user.service.ts:141 | removing by id from joined lists removes from each part |
| `UserService.WithoutNone` | server/src/module/user/user.service.ts:141 | removing ids no user has changes nothing |
| `UserService.WithoutAll` | server/src/module/user/user.service.ts:141 | removing the ids of all users leaves none |
| `UserService.Ids` | server/src/module/user/user.service.ts:141 | the ids list has one id per user, in order |
| `UserService.RemoveCreated` | server/src/module/user/user.service.ts:140-143 | removing the created users by their fresh ids gives back the users from before the batch |
| `UserService.DropTutor` | server/src/module/user/user.service.ts:172-180 | unlinking the user as tutor keeps the set of tutorials |
| `UserService.AddTutor` | server/src/module/user/user.service.ts:182-193 | linking the user as tutor keeps the set of tutorials |
| `UserService.Remove` | server/src/module/user/user.service.ts:200-202 | the correctors without the user no longer contain it and keep everyone else |
| `UserService.DropCorrector` | server/src/module/user/user.service.ts:195-207 | unlinking the user as corrector keeps the set of tutorials |
| `UserService.AddCorrector` | server/src/module/user/user.service.ts:209-220 | linking the user as corrector keeps the set of tutorials |
| `UserService.TutorStepsAt` | server/src/module/user/user.service.ts:172-193 | at each tutorial, the tutor steps make the user its tutor exactly when it is listed, and keep its correctors |
| `UserService.CorrectorStepsAt` | server/src/module/user/user.service.ts:195-220 | at each tutorial, the corrector steps make the user a corrector exactly when it is listed, and keep its tutor |
| `UserService.UpdatedLinks` | server/src/module/user/user.service.ts:148-220 | after an update whose tutorials all exist, the user tutors exactly the listed tutorials and corrects exactly the listed tutorials to correct |
| `UserService.FindUser` | server/src/module/user/user.service.ts:75-83 | a user is found exactly when one has the id, and the position found holds that user |
| `UserService.UserStore.constructor` | server/src/module/user/user.service.ts:62-64 | the store starts with the given users and tutorial links |
| `UserService.UserStore.CreateUser` | server/src/module/user/user.service.ts:389-419 | creating gives the outcome defined for one user; on success the user is appended and linked to its tutorials, and on failure nothing changes |
| `UserService.UserStore.CreateMany` | server/src/module/user/user.service.ts:121-146 | the batch fails exactly when some user gave an error line; then it returns all error lines and removes the created users but keeps the links they got; otherwise it returns the created users |
| `UserService.UserStore.CreateManyAtomic` | server/src/module/user/user.service.ts:121-146 | corrected: a failed batch leaves both the users and the tutorial links as they were |
| `UserService.UserStore.Update` | server/src/module/user/user.service.ts:165-232 | an update succeeds exactly when the user exists, the data passes, no last admin role is removed and all listed tutorials exist; then the user carries the new data and tutors and corrects exactly the listed tutorials; a failure leaves the users as they were |
| `UserService.UserStore.Delete` | server/src/module/user/user.service.ts:244-256 | deleting succeeds exactly when the user exists and is not the last admin; then the user is gone and no tutorial has it as tutor; a failure changes nothing |
| `UserService.CreateAllKeepsLinksOfRemovedUser` | server/src/module/user/user.service.ts:121-146 | two users with the same username: the first is created and made tutor of a tutorial, the second fails, and the tutorial still names the first after the batch is rolled back |

## Left out

- Persistence is not modelled: DAOs, mongoose models and save, remove and populate calls. Services work on in-memory values passed as parameters.
- Reflection is replaced by explicit field and metadata lists. This covers Java reflection and classpath scanning as well as TypeScript `Reflect` metadata.
- Tutorial.java, Team.java, user.model.ts, PasswordCharacters and helperFunctions.ts are not part of this model.
  - A remove hook of user.model.ts could clear the tutorials' links to a removed user. Such a hook would refute the second finding below; it is not part of this model.
  - The character classes, the similar characters and the rule tests of PasswordCharacters are given as values.
  - `compareDateTimes` is taken to order dates by their time.
  - Team.java's `getPoints` is reached through Student.java.
- Student.java and StudentService.java compute points with Java `double`. The model uses exact `real` values, so rounding is not modelled.
- StudentService `deleteStudent` and `setAttendance` only wrap the DAO around modelled operations (`Students.Student.SetAttendanceState`, `StudentService.DeleteStudentFromTeam`). `getTeamOfStudent`, `getPoints` and the other getters are plain reads.
- student.entity.ts `getAllAttendances` and `getAllPresentationPoints` return copies of the student's attendances and presentation points. They are not modelled, since the model's collections are values.
- The `startTime` and `endTime` setters of tutorial.model.ts are not modelled, and the model keeps no times of day. Each setter truncates the given time to the minute, stores its ISO time without milliseconds, and skips the assignment when that ISO time is null.
- The older variant student.model.ts is not modelled; student.entity.ts is.
- GradingEntity.ToDTO returns the exercise gradings as a map from exercise id to the exercise grading itself. The source returns an array of `[id, DTO]` pairs in the insertion order of a JavaScript `Map`, where a repeated id keeps the place of its first occurrence but holds the last value. The order of the pairs and the exercise grading's own `toDTO` are not modelled.
- The definition of `addStudent` on a grading is not part of this model. TeamService.SetGrading models the call `grading.addStudent(student)` as appending the student's id to the grading's students.
- team.service.ts `create`, `update` and `delete` are database work around the modelled helpers.
- tutorial.service.ts:
  - TutorialService.CreateMany and TutorialService.DatesInIntervalGroupedByWeekday fail for an interval whose end is before its start. The source fails there with a `TypeError` from reading a property of the invalid interval's missing start. The error text is the V8 engine's wording and is not guaranteed by the source.
  - `create` and `update` are database work apart from the modelled checks.
  - `assertAtLeastOneDate` is async and not awaited. Its rejection is not modelled.
  - `setMultipleSubstitutes` is a loop over `setTutorialSubstitute`, and the unawaited `setTutorialSubstitute` inside `setSubstitute` is not modelled.
- TutorialServiceJava.GetSubstituteTutorialsOfUser requires distinct tutorials, as `getAllTutorials` returns each tutorial once. The order of the dates in each list follows the iteration of a Java `HashMap`, so the model states only which dates are listed.
- UserService.UserStore.CreateMany:
  - The users are created one after the other. The parallel `Promise.all` of the removal, and an error racing with it, are not modelled.
  - Each new id must differ from the ids of the users already stored, since the database hands out fresh ids. Ids repeated within one batch are not excluded; such users are created, each with the id it is given.
- UserService.UserStore.Update: the updated `tutorials` after a failure are the source's partial steps. The ensures states only that the users are unchanged then.
- PasswordGenerator:
  - `window.crypto` becomes the `random` parameter, a function from the refill number to the values of that batch. `batchSize` must be at least 1.
  - PasswordGenerator.Generator.Create follows the strict check as written, so it refuses a strict generator whose length equals the number of classes. The corrected check is proved satisfiable on its own (PasswordGenerator.StrictLengthSatisfiable) and is not used by Create.
  - PasswordGenerator.Generator.Generate bounds the strict-mode retry, which in the source recurses until a password fits, by `attempts`. It may return `None` after that many retries.
- IliasMapping:
  - `localeCompare` is replaced by character-code order.
  - When several names map to the same student in the data, the choice among them follows `Map` insertion order, and that choice is not modelled.
  - IliasMapping.ComputedMappingInjective assumes distinct student ids, as database ids are distinct.
  - IliasMapping.MappingContext.AddMapping keeps a mapping stored under the empty name, because the source tests the old name for truthiness. Its injectivity ensures is therefore conditional on there being no such entry.
  - The loading flag, the working flag and the errors of the context are not modelled.
- UserForm.LowerAll models `toLowerCase` for ASCII letters only.
- Routing: the path text in route errors, produced by `JSON.stringify`, is not modelled. An error carries its kind and the route's title.
- TutorialForm:
  - A Luxon `DateTime` becomes a day number, and a week is seven days. Time of day, daylight saving time and ISO formatting are not modelled.
  - `DateTime.local()` becomes the `today` and `now` parameters.
  - The Yup validation schema is not modelled.
  - The `filter(Boolean)` after `toISODate` is not modelled, since the dates are taken to be valid.
  - TutorialForm.GetInitialTutorialFormValues sorts a copy of the tutorial's dates. The source sorts `tutorial.dates` in place, so the caller's tutorial is reordered as well. That side effect is not modelled.
- React components, hooks, HTTP controllers, mail, PDF and spreadsheet output are not part of the core and are not modelled.

## Findings

| source | as written | input that shows it | evidently intended | confidence | as-written member | corrected member |
|---|---|---|---|---|---|---|
| server/src/module/settings/settings.static.ts:102-105 | `substr(start, length)` receives the end index as its length, so a prefix with a slash at both ends keeps its trailing slash | prefix "/foo/" gives "foo/" | "foo": the doc comment says any trailing '/' is removed | not executed | `Settings.PathPrefixKeepsTrailingSlash` (on `Settings.PathPrefixAsWritten`) | `Settings.PathPrefixStrips` (on `Settings.PathPrefix`) |
| server/src/module/user/user.service.ts:140-143 | when any user of a batch fails, the created users are removed but the tutorials keep them as tutor and corrector | two users with the same username, both tutor of tutorial "t": the first is created and then removed, and "t" still names it as tutor | a failed batch leaves the tutorials as they were | not executed; holds only if user.model.ts has no remove hook that clears the links | `UserService.CreateAllKeepsLinksOfRemovedUser` (on `UserService.UserStore.CreateMany`) | `UserService.UserStore.CreateManyAtomic` |
| client/src/util/password-generator/PasswordGenerator.ts:182 | `minStrictLength >= length` rejects a length equal to the number of enabled classes | strict, lowercase and uppercase, length 2 | accepted: one character per class fits, and the message asks for a length "at least" that number | not executed | `PasswordGenerator.AsWrittenRejectsSatisfiableLength` (on `PasswordGenerator.AssertStrictMatchesLengthAsWritten`) | `PasswordGenerator.StrictLengthSatisfiable` (on `PasswordGenerator.AssertStrictMatchesLength`) |
