/** `TodoItem._parse` and `write`: one entry of a checklist. */
module TodoItems {
  import opened Wrappers
  import opened Raw
  import Users

  /** The wire item; the attributes read with `hasattr` are None when
      absent. */
  datatype RawTodoItem = RawTodoItem(
    id: int, text: string,
    completedBy: Option<int>, completedDate: Option<int>, completed: Option<bool>)

  datatype TodoItem = TodoItem(
    id: int, text: string, completedBy: Option<Users.User>,
    completedDate: Option<Stamp>, isCompleted: bool)

  /** The user who completed the item: looked up only for a non-zero id and
      a non-empty table, and None when the id is not listed. */
  function CompletedBy(item: RawTodoItem, users: map<int, RawUser>): (r: Option<Users.User>)
    ensures r.Some? ==> TruthyInt(item.completedBy) && item.completedBy.value in users
    ensures TruthyInt(item.completedBy) && item.completedBy.value in users ==>
      r == Users.Parse(Some(users[item.completedBy.value]))
  {
    if TruthyInt(item.completedBy) && users != map[] && item.completedBy.value in users then
      Users.Parse(Some(users[item.completedBy.value]))
    else None
  }

  /** `TodoItem._parse`: the completing user as above; the date only when
      truthy; the item is completed when it has a completing user or its own
      flag says so. */
  function Parse(item: RawTodoItem, users: map<int, RawUser>): (r: TodoItem)
    ensures r.id == item.id && r.text == item.text
    ensures r.completedBy == CompletedBy(item, users)
    ensures r.completedDate.Some? <==> TruthyInt(item.completedDate)
    ensures r.completedDate.Some? ==> r.completedDate.value == StampOf(item.completedDate.value)
    ensures r.isCompleted <==> r.completedBy.Some? || Truthy(item.completed)
  {
    var who := CompletedBy(item, users);
    TodoItem(item.id, item.text, who,
             if TruthyInt(item.completedDate) then Some(StampOf(item.completedDate.value)) else None,
             who.Some? || Truthy(item.completed))
  }

  /** `TodoItem.write`: what is sent for the item is its text. */
  function Write(t: TodoItem): (r: string)
    ensures r == t.text
  {
    t.text
  }

  /** Writing a decoded item sends the wire text back; an item whose
      completing user is listed (and not empty) counts as completed whatever
      its own flag says. */
  lemma ParseWrite(item: RawTodoItem, users: map<int, RawUser>)
    ensures Write(Parse(item, users)) == item.text
    ensures (TruthyInt(item.completedBy) && item.completedBy.value in users
             && !users[item.completedBy.value].UserEmpty?) ==> Parse(item, users).isCompleted
  {
  }
}
