/** `TodoList._parse` and `_parse_media`: a checklist, and a checklist
    message with the completions that came with it. */
module TodoLists {
  import opened Wrappers
  import opened Raw
  import opened TodoItems

  /** The list title: a text-with-entities object, a bare string, or
      something else. */
  datatype RawTitle = TextWithEntities(text: string) | PlainTitle(s: string) | OtherTitle

  /** The wire checklist; `list` and `others_can_complete` are None when
      absent. */
  datatype RawTodoList = RawTodoList(title: RawTitle, list: Option<seq<RawTodoItem>>, othersCanComplete: Option<bool>)

  /** The checklist message media; `completions` is None when absent. */
  datatype RawMediaTodo = RawMediaTodo(todo: Option<RawTodoList>, completions: Option<seq<Blob>>)

  datatype TodoList = TodoList(
    id: Option<int>, title: Option<string>, items: Option<seq<TodoItem>>,
    completions: Option<seq<Nested>>, completedCount: Option<int>, totalCount: Option<int>,
    isOthersCanComplete: Option<bool>)

  /** `users or {}`. */
  function TableOf(users: Option<map<int, RawUser>>): map<int, RawUser> {
    if users.Some? then users.value else map[]
  }

  /** `title.text` when the title has one, the title itself when it is a
      string, None otherwise. */
  function TitleOf(t: RawTitle): (r: Option<string>)
    ensures t.TextWithEntities? ==> r == Some(t.text)
    ensures t.PlainTitle? ==> r == Some(t.s)
    ensures t.OtherTitle? ==> r.None?
  {
    match t
    case TextWithEntities(text) => Some(text)
    case PlainTitle(s) => Some(s)
    case OtherTitle => None
  }

  function ParseItems(items: seq<RawTodoItem>, users: map<int, RawUser>): (r: seq<TodoItem>)
    ensures |r| == |items|
    ensures forall k :: 0 <= k < |items| ==> r[k] == TodoItems.Parse(items[k], users)
  {
    seq(|items|, k requires 0 <= k < |items| => TodoItems.Parse(items[k], users))
  }

  /** `TodoList._parse`: one item per raw item in order, with the count of
      them, both None when there are none; the id, the completions and the
      completed count are left None. */
  function Parse(todo: RawTodoList, users: Option<map<int, RawUser>>): (r: TodoList)
    ensures r.items.None? <==> |Items(todo.list)| == 0
    ensures r.items.Some? ==> r.items.value == ParseItems(todo.list.value, TableOf(users))
    ensures r.totalCount.None? <==> r.items.None?
    ensures r.totalCount.Some? ==> r.totalCount.value == |todo.list.value|
    ensures r.id.None? && r.completions.None? && r.completedCount.None?
    ensures r.title == TitleOf(todo.title)
    ensures r.isOthersCanComplete == todo.othersCanComplete
  {
    var items := ParseItems(Items(todo.list), TableOf(users));
    TodoList(None, TitleOf(todo.title), NonEmpty(items), None, None,
             if items != [] then Some(|items|) else None, todo.othersCanComplete)
  }

  /** What `_parse_media` returns: None without a checklist; otherwise the
      parsed checklist with its completions attached. Every other field is
      what `_parse` gives, the completions are one per raw completion in
      order (None when there are none), and their count is set exactly when
      there are some. */
  function ParseMedia(media: RawMediaTodo, users: Option<map<int, RawUser>>): (r: Option<TodoList>)
    ensures r.None? <==> media.todo.None?
    ensures r.Some? ==>
      var t := Parse(media.todo.value, users);
      && r.value.(completions := None, completedCount := None) == t
      && (r.value.completions.None? <==> |Items(media.completions)| == 0)
      && (r.value.completions.Some? ==> r.value.completions.value == MapNested(CompletionParser, media.completions.value))
      && (r.value.completedCount.Some? <==> r.value.completions.Some?)
      && (r.value.completedCount.Some? ==> r.value.completedCount.value == |media.completions.value|)
  {
    if media.todo.None? then None
    else
      var t := Parse(media.todo.value, users);
      var cs := MapNested(CompletionParser, Items(media.completions));
      Some(t.(completions := NonEmpty(cs), completedCount := if cs != [] then Some(|cs|) else t.completedCount))
  }

  /** The library object `_parse_media` fills in after construction. */
  class TodoListObject {
    var id: Option<int>
    var title: Option<string>
    var items: Option<seq<TodoItem>>
    var completions: Option<seq<Nested>>
    var completedCount: Option<int>
    var totalCount: Option<int>
    var isOthersCanComplete: Option<bool>

    function Value(): TodoList
      reads this
    {
      TodoList(id, title, items, completions, completedCount, totalCount, isOthersCanComplete)
    }

    constructor (v: TodoList)
      ensures Value() == v
    {
      id := v.id;
      title := v.title;
      items := v.items;
      completions := v.completions;
      completedCount := v.completedCount;
      totalCount := v.totalCount;
      isOthersCanComplete := v.isOthersCanComplete;
    }
  }

  /** `TodoList._parse_media` as written: parse the checklist, then set the
      completions on the new object and, when there are any, the completed
      count. */
  method ParseMediaObject(media: RawMediaTodo, users: Option<map<int, RawUser>>) returns (r: TodoListObject?)
    ensures r == null <==> media.todo.None?
    ensures r != null ==> fresh(r) && Some(r.Value()) == ParseMedia(media, users)
  {
    if media.todo.None? {
      return null;
    }
    r := new TodoListObject(Parse(media.todo.value, users));
    var completions := MapNested(CompletionParser, Items(media.completions));
    r.completions := NonEmpty(completions);
    if completions != [] {
      r.completedCount := Some(|completions|);
    }
  }
}
