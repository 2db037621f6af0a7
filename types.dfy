/** The records of the task board and of the recipe browser
    (src/lib/types.ts). */
module Types {
  import opened Wrappers

  /** A task's column: exactly one of three values. */
  datatype TaskStatus = ToDo | InProgress | Done {
    /** The string the application stores and compares. */
    function Name(): string {
      match this
      case ToDo => "To Do"
      case InProgress => "In Progress"
      case Done => "Done"
    }
  }

  datatype TaskPriority = Low | Medium | High {
    function Name(): string {
      match this
      case Low => "Low"
      case Medium => "Medium"
      case High => "High"
    }
  }

  const AllStatuses: seq<TaskStatus> := [ToDo, InProgress, Done]
  const AllPriorities: seq<TaskPriority> := [Low, Medium, High]

  /** The status whose name is `s`, if there is one. */
  function ParseStatus(s: string): (r: Option<TaskStatus>)
    ensures r.Some? ==> r.value.Name() == s
    ensures r.None? ==> forall st: TaskStatus :: st.Name() != s
  {
    if s == "To Do" then Some(ToDo)
    else if s == "In Progress" then Some(InProgress)
    else if s == "Done" then Some(Done)
    else None
  }

  function ParsePriority(s: string): (r: Option<TaskPriority>)
    ensures r.Some? ==> r.value.Name() == s
    ensures r.None? ==> forall p: TaskPriority :: p.Name() != s
  {
    if s == "Low" then Some(Low)
    else if s == "Medium" then Some(Medium)
    else if s == "High" then Some(High)
    else None
  }

  /** The three statuses are listed once each, and their names are distinct
      and parse back to them. */
  lemma StatusesExactlyThree()
    ensures forall st: TaskStatus :: st in AllStatuses
    ensures |AllStatuses| == 3
    ensures forall i, j :: 0 <= i < j < 3 ==> AllStatuses[i].Name() != AllStatuses[j].Name()
    ensures forall st: TaskStatus :: ParseStatus(st.Name()) == Some(st)
  {
    forall st: TaskStatus ensures st in AllStatuses {
      match st
      case ToDo => assert AllStatuses[0] == st;
      case InProgress => assert AllStatuses[1] == st;
      case Done => assert AllStatuses[2] == st;
    }
  }

  lemma PrioritiesExactlyThree()
    ensures forall p: TaskPriority :: p in AllPriorities
    ensures |AllPriorities| == 3
    ensures forall i, j :: 0 <= i < j < 3 ==> AllPriorities[i].Name() != AllPriorities[j].Name()
    ensures forall p: TaskPriority :: ParsePriority(p.Name()) == Some(p)
  {
    forall p: TaskPriority ensures p in AllPriorities {
      match p
      case Low => assert AllPriorities[0] == p;
      case Medium => assert AllPriorities[1] == p;
      case High => assert AllPriorities[2] == p;
    }
  }

  /** A task. `description`, `dueDate` and `assignee` may be absent;
      `dueDate` holds an ISO date string, the timestamps ISO date-time
      strings, all of them opaque here. */
  datatype Task = Task(
    id: string,
    title: string,
    description: Option<string>,
    status: TaskStatus,
    priority: TaskPriority,
    dueDate: Option<string>,
    assignee: Option<string>,
    createdAt: string,
    updatedAt: string)

  /** The three independently optional filter dimensions. */
  datatype TaskFilters = TaskFilters(
    status: Option<seq<TaskStatus>>,
    priority: Option<seq<TaskPriority>>,
    search: Option<string>)

  /** `{}`: no filter key present. */
  const NoFilters: TaskFilters := TaskFilters(None, None, None)

  /** The values a submitted task form carries. */
  datatype TaskFormData = TaskFormData(
    title: string,
    description: Option<string>,
    status: TaskStatus,
    priority: TaskPriority,
    dueDate: Option<string>,
    assignee: Option<string>)

  /** The number of indexed ingredient/measure slots of a raw recipe. */
  const SlotCount: nat := 20

  /** The slots `strIngredient1..20` (or `strMeasure1..20`): slot `i` is
      element `i - 1`; each may be absent. */
  type Slots = s: seq<Option<string>> | |s| == SlotCount witness seq(20, _ => None)

  /** A recipe as the remote recipe API sends it. */
  datatype Recipe = Recipe(
    idMeal: string,
    strMeal: string,
    strInstructions: string,
    strMealThumb: string,
    strIngredient: Slots,
    strMeasure: Slots)

  /** `meals` is `null` (None) or a list of raw recipes. */
  datatype RecipeApiResponse = RecipeApiResponse(meals: Option<seq<Recipe>>)

  datatype Ingredient = Ingredient(name: string, measure: string)

  /** A recipe with its slots flattened into an ordered ingredient list. */
  datatype ProcessedRecipe = ProcessedRecipe(
    id: string,
    name: string,
    instructions: string,
    image: string,
    ingredients: seq<Ingredient>)
}
