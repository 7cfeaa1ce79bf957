/**
 * The exercises page: the JSON it posts for a new exercise, the form reset after a successful
 * add, and the per-category counts of its statistics row.
 */
module ExercisesPage {
  import opened Wrappers
  import opened Json
  import Text
  import Numbers
  import GymExercisesRoute
  import DocStore

  /** The add-exercise form; every input holds text. */
  datatype ExerciseForm = ExerciseForm(
    name: string,
    description: string,
    category: string,
    duration: string,
    sets: string,
    reps: string,
    restTime: string,
    instructions: string,
    difficulty: string,
    equipment: string,
    targetMuscles: string,
    imageUrl: string)

  const InitialForm: ExerciseForm :=
    ExerciseForm("", "", "Strength", "", "", "", "", "", "Beginner", "", "", "")

  /**
   * A numeric input as sent: `null` when empty, else `parseInt` of the text, where a text that
   * does not start with a digit gives `NaN`, which `JSON.stringify` sends as `null`.
   */
  function NumberField(s: string): (v: Value)
    ensures s == "" ==> v == JNull
    ensures v.JNum? <==> s != "" && Numbers.IsDigit(s[0])
    ensures v.JNum? ==> v.n >= 0 && Numbers.ParseInt(s) == Some(v.n as nat)
  {
    if s == "" then JNull
    else match Numbers.ParseInt(s)
      case None => JNull
      case Some(n) => JNum(n)
  }

  /** A comma list as sent: `[]` when empty, else the pieces between commas, each trimmed. */
  function ListField(s: string): (r: seq<string>)
    ensures s == "" ==> r == []
    ensures s != "" ==> |r| == |Text.Split(s, ',')| == Text.Occurrences(s, ',') + 1
    ensures s != "" ==> forall i :: 0 <= i < |r| ==> r[i] == Text.Trim(Text.Split(s, ',')[i])
    ensures forall p :: p in r ==> Text.Trimmed(p) && ',' !in p
  {
    if s == "" then []
    else
      Text.SplitCount(s, ',');
      Text.SplitPieces(s, ',');
      var parts := Text.Split(s, ',');
      seq(|parts|, i requires 0 <= i < |parts| => Text.Trim(parts[i]))
  }

  /** A comma list of names that carry no comma and no outer white space comes back as those names. */
  lemma ListFieldOfJoined(names: seq<string>)
    requires |names| >= 1 && forall p :: p in names ==> Text.Trimmed(p) && ',' !in p
    requires Text.Join(names, ',') != ""
    ensures ListField(Text.Join(names, ',')) == names
  {
    Text.SplitJoin(names, ',');
    forall i | 0 <= i < |names| ensures Text.Trim(names[i]) == names[i] {
      assert names[i] in names;
      Text.TrimOfTrimmed(names[i]);
    }
  }

  function Strings(items: seq<string>): (v: Value)
    ensures v.JArr? && |v.items| == |items|
    ensures forall i :: 0 <= i < |items| ==> v.items[i] == JStr(items[i])
  {
    JArr(seq(|items|, i requires 0 <= i < |items| => JStr(items[i])))
  }

  /** The image URL sent: an upload's URL when it is truthy, else the form's text. */
  function ChosenImage(form: ExerciseForm, uploaded: Option<string>): (url: string)
    ensures Truthy(uploaded) ==> url == uploaded.value
    ensures !Truthy(uploaded) ==> url == form.imageUrl
  {
    OrElse(uploaded, form.imageUrl)
  }

  /** `exerciseData`: the form's fields with numbers, lists and the chosen image URL filled in. */
  datatype Payload = Payload(
    name: string,
    description: string,
    category: string,
    duration: Value,
    sets: Value,
    reps: Value,
    restTime: Value,
    instructions: string,
    difficulty: string,
    equipment: seq<string>,
    targetMuscles: seq<string>,
    imageUrl: string)

  /** `uploaded` is what the image upload returned: `None` when no file was chosen or the upload failed. */
  function ExerciseData(form: ExerciseForm, uploaded: Option<string>): (p: Payload)
    ensures p.name == form.name && p.description == form.description && p.category == form.category
    ensures p.instructions == form.instructions && p.difficulty == form.difficulty
    ensures p.duration == NumberField(form.duration) && p.sets == NumberField(form.sets)
    ensures p.reps == NumberField(form.reps) && p.restTime == NumberField(form.restTime)
    ensures p.equipment == ListField(form.equipment) && p.targetMuscles == ListField(form.targetMuscles)
    ensures p.imageUrl == ChosenImage(form, uploaded)
  {
    Payload(form.name, form.description, form.category,
            NumberField(form.duration), NumberField(form.sets), NumberField(form.reps), NumberField(form.restTime),
            form.instructions, form.difficulty,
            ListField(form.equipment), ListField(form.targetMuscles), ChosenImage(form, uploaded))
  }

  const PayloadKeys: set<string> := {"name", "description", "category", "duration", "sets", "reps", "restTime",
                                     "instructions", "difficulty", "equipment", "targetMuscles", "imageUrl"}

  /** The JSON object `JSON.stringify` sends: one entry per field, each holding that field's value. */
  function ToJson(p: Payload): (o: Object)
    ensures o.Keys == PayloadKeys
    ensures o["name"] == JStr(p.name) && o["description"] == JStr(p.description)
    ensures o["category"] == JStr(p.category) && o["instructions"] == JStr(p.instructions)
    ensures o["difficulty"] == JStr(p.difficulty) && o["imageUrl"] == JStr(p.imageUrl)
    ensures o["duration"] == p.duration && o["sets"] == p.sets
    ensures o["reps"] == p.reps && o["restTime"] == p.restTime
    ensures o["equipment"] == Strings(p.equipment) && o["targetMuscles"] == Strings(p.targetMuscles)
  {
    map[
      "name" := JStr(p.name),
      "description" := JStr(p.description),
      "category" := JStr(p.category),
      "duration" := p.duration,
      "sets" := p.sets,
      "reps" := p.reps,
      "restTime" := p.restTime,
      "instructions" := JStr(p.instructions),
      "difficulty" := JStr(p.difficulty),
      "equipment" := Strings(p.equipment),
      "targetMuscles" := Strings(p.targetMuscles),
      "imageUrl" := JStr(p.imageUrl)
    ]
  }

  /**
   * The page never sends `exerciseId`, so the route's answer to its POST carries the new
   * document's id, the page's fields unchanged, and the caller as `createdBy`.
   */
  lemma PageExerciseGetsDocId(form: ExerciseForm, uploaded: Option<string>, uid: string, newId: string,
                              createdAt: string)
    ensures var sent := ToJson(ExerciseData(form, uploaded));
      var answer := GymExercisesRoute.Listed(DocStore.Doc(newId, GymExercisesRoute.NewExercise(sent, uid, createdAt)));
      && answer["exerciseId"] == JStr(newId)
      && answer["createdBy"] == JStr(uid)
      && forall k :: k in sent ==> answer[k] == sent[k]
  {
    StampsAreNotFormKeys();
  }

  /** The fields the route adds or reads back are not among the form's keys. */
  lemma StampsAreNotFormKeys()
    ensures "exerciseId" !in PayloadKeys && "createdAt" !in PayloadKeys && "createdBy" !in PayloadKeys
  {
  }

  /** The page state the add handler touches. */
  datatype PageState = PageState(form: ExerciseForm, showAddModal: bool, hasImageFile: bool, imagePreview: string)

  /** After the POST: on success the modal closes and the form and image are reset; otherwise nothing changes. */
  function AfterAdd(state: PageState, ok: bool): (s: PageState)
    ensures ok ==> s.form == InitialForm && !s.showAddModal && !s.hasImageFile && s.imagePreview == ""
    ensures !ok ==> s == state
  {
    if ok then PageState(InitialForm, false, false, "") else state
  }

  /** The alert shown when the POST is refused. */
  function FailureAlert(message: Option<string>): (text: string)
    ensures text != ""
    ensures Truthy(message) ==> text == message.value
  {
    OrElse(message, "Failed to add exercise")
  }

  predicate InCategory(e: Object, category: string) {
    "category" in e && e["category"] == JStr(category)
  }

  /** `exercises.filter(e => e.category === category).length`. */
  function CategoryCount(exercises: seq<Object>, category: string): (n: nat)
    ensures n <= |exercises|
  {
    if exercises == [] then 0
    else (if InCategory(exercises[0], category) then 1 else 0) + CategoryCount(exercises[1..], category)
  }

  /** The Strength, Cardio and Flexibility tiles together never count more than the total tile. */
  lemma {:induction false} CategoryCountsWithinTotal(exercises: seq<Object>)
    ensures CategoryCount(exercises, "Strength") + CategoryCount(exercises, "Cardio")
            + CategoryCount(exercises, "Flexibility") <= |exercises|
  {
    if exercises != [] {
      CategoryCountsWithinTotal(exercises[1..]);
    }
  }
}
