/**
 * Data shaping in the to-do list screen: the list configuration and its updates, the client
 * filters for the two tabs and the search box, pagination with a one-item peek, and the
 * payloads sent for a status change and a new task.
 */
module ToDoList {
  import opened Wrappers
  import opened ToDos
  import JsText
  import ToDoServer

  /** JavaScript `a || b` on an optional string: `a` unless it is undefined or empty. */
  function OrElse(a: Option<string>, b: Option<string>): (r: Option<string>)
    ensures a.Some? && a.value != "" ==> r == a
    ensures a.None? || a.value == "" ==> r == b
  {
    if a.Some? && a.value != "" then a else b
  }

  // ---------------------------------------------------------------- configuration

  datatype Sort = Sort(field: string, ascending: bool)

  /** `filter.status`: `{$ne: null}` for "any category", or a chosen value. */
  datatype StatusChoice = AnyStatus | StatusIs(value: string)

  datatype ListFilter = ListFilter(searchText: Option<string>, status: Option<StatusChoice>)

  datatype Config = Config(
    sort: Sort,
    filter: ListFilter,
    searchBy: Option<string>,
    viewComplexTable: bool,
    limitPending: nat,
    limitCompleted: nat)

  const PageStep := 4

  const InitialConfig := Config(Sort("createdat", true), ListFilter(None, None), None, false, PageStep, PageStep)

  datatype Section = Pending | Completed

  /** `onLoadMore(type)`: four more items for the chosen section only. */
  function OnLoadMore(c: Config, section: Section): (r: Config)
    ensures section == Pending ==> r == c.(limitPending := c.limitPending + 4)
    ensures section == Completed ==> r == c.(limitCompleted := c.limitCompleted + 4)
  {
    match section
    case Pending => c.(limitPending := c.limitPending + PageStep)
    case Completed => c.(limitCompleted := c.limitCompleted + PageStep)
  }

  /** Both limits start at four and only ever grow by four per load-more. */
  lemma LimitsAfterLoadMores(sections: seq<Section>)
    ensures var c := LoadMores(InitialConfig, sections);
      && c.limitPending == 4 + 4 * Count(sections, Pending)
      && c.limitCompleted == 4 + 4 * Count(sections, Completed)
      && c == InitialConfig.(limitPending := c.limitPending, limitCompleted := c.limitCompleted)
  {
    LoadMoresCounts(InitialConfig, sections);
  }

  function LoadMores(c: Config, sections: seq<Section>): Config
    decreases |sections|
  {
    if sections == [] then c else OnLoadMore(LoadMores(c, sections[..|sections| - 1]), sections[|sections| - 1])
  }

  function Count(sections: seq<Section>, s: Section): nat
    decreases |sections|
  {
    if sections == [] then 0
    else Count(sections[..|sections| - 1], s) + (if sections[|sections| - 1] == s then 1 else 0)
  }

  lemma {:induction false} LoadMoresCounts(c: Config, sections: seq<Section>)
    ensures var r := LoadMores(c, sections);
      && r.limitPending == c.limitPending + 4 * Count(sections, Pending)
      && r.limitCompleted == c.limitCompleted + 4 * Count(sections, Completed)
      && r == c.(limitPending := r.limitPending, limitCompleted := r.limitCompleted)
    decreases |sections|
  {
    if sections != [] {
      LoadMoresCounts(c, sections[..|sections| - 1]);
    }
  }

  /** The debounced search effect: `searchText.trim() || undefined`. */
  function ApplySearchText(c: Config, text: string): (r: Config)
    ensures r == c.(filter := r.filter) && r.filter.status == c.filter.status
    ensures r.filter.searchText.None? <==> JsText.Blank(text)
    ensures r.filter.searchText.Some? ==> r.filter.searchText.value == JsText.Trim(text) && r.filter.searchText.value != ""
  {
    JsText.TrimEmptyIffBlank(text);
    var trimmed := JsText.Trim(text);
    c.(filter := c.filter.(searchText := if trimmed == "" then None else Some(trimmed)))
  }

  /** `onSelectedCategory(value)`: an empty value means any status. */
  function OnSelectedCategory(c: Config, value: string): (r: Config)
    ensures r == c.(filter := c.filter.(status := r.filter.status))
    ensures r.filter.status == Some(if value == "" then AnyStatus else StatusIs(value))
  {
    c.(filter := c.filter.(status := Some(if value == "" then AnyStatus else StatusIs(value))))
  }

  /** `toggleSection(s)`: flip key `s` (a missing key counts as false), keep every other key. */
  function ToggleSection(expanded: map<string, bool>, s: string): (r: map<string, bool>)
    ensures s in r && r[s] == !(s in expanded && expanded[s])
    ensures forall k :: k != s ==> (k in r <==> k in expanded) && (k in expanded ==> r[k] == expanded[k])
  {
    expanded[s := !(s in expanded && expanded[s])]
  }

  const InitialExpanded := map["Não Concluídas" := true, "Concluídas" := true]

  /** Toggling a section that has an entry twice restores the map. */
  lemma ToggleTwiceRestores(expanded: map<string, bool>, s: string)
    requires s in expanded
    ensures ToggleSection(ToggleSection(expanded, s), s) == expanded
  {
  }

  // ---------------------------------------------------------------- client filters

  /** Tab '2' lists team tasks assigned to someone else; any other tab lists the caller's tasks. */
  function TabFilter(tab: string, me: Option<string>): Filter {
    if tab == "2" then Filter(map[TypeKey := Is(Some(Text("shared"))), AssigneeKey := IsNot(TextOf(me))], [], [])
    else Filter(map[], [map[AssigneeKey := Is(TextOf(me))], map[TypeKey := Is(Some(Text("personal")))]], [])
  }

  /** A search looks for the text in the title or the description; no text, no condition. */
  function SearchFilter(searchText: Option<string>): Filter {
    if searchText.Some? && searchText.value != "" then
      Filter(map[], [map[TitleKey := Like(searchText.value)], map[DescriptionKey := Like(searchText.value)]], [])
    else Everything
  }

  function StatusFilter(st: Status): Filter {
    Filter(map[StatusKey := Is(Some(StatusValue(st)))], [], [])
  }

  /** `{...clientTabFilter, ...clientSearchFilter, status}` as written. */
  function ClientFilterAsWritten(tab: string, me: Option<string>, searchText: Option<string>, st: Status): Filter {
    Spread(Spread(TabFilter(tab, me), SearchFilter(searchText)), StatusFilter(st))
  }

  /** The list filter as intended: tab, search and status all hold. */
  function ClientFilter(tab: string, me: Option<string>, searchText: Option<string>, st: Status): Filter {
    AllOf([TabFilter(tab, me), SearchFilter(searchText), StatusFilter(st)])
  }

  predicate InTab(t: ToDo, tab: string, me: Option<string>) {
    if tab == "2" then t.kind == Some("shared") && t.assigneeId != me
    else t.assigneeId == me || t.kind == Some("personal")
  }

  predicate FoundBy(t: ToDo, searchText: Option<string>, like: (string, string) -> bool) {
    searchText.Some? && searchText.value != "" ==>
      like(t.title, searchText.value) || like(t.description, searchText.value)
  }

  lemma TabFilterMeans(tab: string, me: Option<string>, t: ToDo, like: (string, string) -> bool)
    ensures Matches(TabFilter(tab, me), t, like) <==> InTab(t, tab, me)
  {
    TextOfInjective(t.assigneeId, me);
    var f := TabFilter(tab, me);
    if tab == "2" {
      assert Holds(f.fields, t, like) ==>
        CondHolds(f.fields[TypeKey], FieldOf(t, TypeKey), like) && CondHolds(f.fields[AssigneeKey], FieldOf(t, AssigneeKey), like);
    } else {
      if t.assigneeId == me { assert Holds(f.anyOf[0], t, like); }
      if t.kind == Some("personal") { assert Holds(f.anyOf[1], t, like); }
      if Matches(f, t, like) {
        var i :| 0 <= i < |f.anyOf| && Holds(f.anyOf[i], t, like);
        if i == 0 { assert CondHolds(f.anyOf[0][AssigneeKey], FieldOf(t, AssigneeKey), like); }
        else { assert CondHolds(f.anyOf[1][TypeKey], FieldOf(t, TypeKey), like); }
      }
    }
  }

  lemma SearchFilterMeans(searchText: Option<string>, t: ToDo, like: (string, string) -> bool)
    ensures Matches(SearchFilter(searchText), t, like) <==> FoundBy(t, searchText, like)
  {
    var f := SearchFilter(searchText);
    if searchText.Some? && searchText.value != "" {
      if like(t.title, searchText.value) { assert Holds(f.anyOf[0], t, like); }
      if like(t.description, searchText.value) { assert Holds(f.anyOf[1], t, like); }
      if Matches(f, t, like) {
        var i :| 0 <= i < |f.anyOf| && Holds(f.anyOf[i], t, like);
        if i == 0 { assert CondHolds(f.anyOf[0][TitleKey], FieldOf(t, TitleKey), like); }
        else { assert CondHolds(f.anyOf[1][DescriptionKey], FieldOf(t, DescriptionKey), like); }
      }
    }
  }

  lemma StatusFilterMeans(st: Status, t: ToDo, like: (string, string) -> bool)
    ensures Matches(StatusFilter(st), t, like) <==> t.status == Some(st)
  {
    var f := StatusFilter(st);
    assert Holds(f.fields, t, like) ==> CondHolds(f.fields[StatusKey], FieldOf(t, StatusKey), like);
  }

  /** The intended list filter selects the tab's tasks that the search finds and that have the section's status. */
  lemma ClientFilterMeans(tab: string, me: Option<string>, searchText: Option<string>, st: Status, t: ToDo, like: (string, string) -> bool)
    ensures Matches(ClientFilter(tab, me, searchText, st), t, like) <==>
      InTab(t, tab, me) && FoundBy(t, searchText, like) && t.status == Some(st)
  {
    var parts := [TabFilter(tab, me), SearchFilter(searchText), StatusFilter(st)];
    AllOfMatches(parts, t, like);
    assert parts[0] == TabFilter(tab, me) && parts[1] == SearchFilter(searchText) && parts[2] == StatusFilter(st);
    TabFilterMeans(tab, me, t, like);
    SearchFilterMeans(searchText, t, like);
    StatusFilterMeans(st, t, like);
  }

  /** Without a search, or on tab '2', the spread loses nothing: it selects what the intended filter selects. */
  lemma SpreadHarmlessWithoutClash(tab: string, me: Option<string>, searchText: Option<string>, st: Status, t: ToDo, like: (string, string) -> bool)
    requires tab == "2" || searchText.None? || searchText.value == ""
    ensures Matches(ClientFilterAsWritten(tab, me, searchText, st), t, like) <==> Matches(ClientFilter(tab, me, searchText, st), t, like)
  {
    var tf := TabFilter(tab, me);
    var sf := SearchFilter(searchText);
    var parts := [tf, sf, StatusFilter(st)];
    AllOfMatches(parts, t, like);
    assert parts[0] == tf && parts[1] == sf && parts[2] == StatusFilter(st);
    SpreadWithoutClash(tf, sf, t, like);
    SpreadWithoutClash(Spread(tf, sf), StatusFilter(st), t, like);
  }

  /**
   * As written, on tab '1' a search replaces the tab's `$or`: a shared task assigned to
   * someone else shows among "my" tasks as soon as the search finds it.
   */
  lemma SearchOverridesTabCondition()
    ensures var like := (text: string, pattern: string) => Contains(text, pattern);
      var t := ToDo(Some("t1"), "report", "", Some(NotConcluded), Some("shared"), Some("boss"), Some("colleague"), None, Unset);
      && Matches(ClientFilterAsWritten("1", Some("me"), Some("rep"), NotConcluded), t, like)
      && !Matches(ClientFilter("1", Some("me"), Some("rep"), NotConcluded), t, like)
  {
    var like := (text: string, pattern: string) => Contains(text, pattern);
    var t := ToDo(Some("t1"), "report", "", Some(NotConcluded), Some("shared"), Some("boss"), Some("colleague"), None, Unset);
    var f := ClientFilterAsWritten("1", Some("me"), Some("rep"), NotConcluded);
    assert "rep" <= "report";
    assert like("report", "rep");
    assert f.anyOf[0] == map[TitleKey := Like("rep")];
    assert CondHolds(Like("rep"), FieldOf(t, TitleKey), like);
    assert Holds(f.anyOf[0], t, like);
    assert Holds(f.fields, t, like) by {
      assert f.fields == map[StatusKey := Is(Some(StatusValue(NotConcluded)))];
    }
    ClientFilterMeans("1", Some("me"), Some("rep"), NotConcluded, t, like);
  }

  /**
   * `{$regex: pattern, $options: 'i'}` for a pattern without special characters, on text
   * already in lower case: the pattern occurs in the text.
   */
  predicate Contains(text: string, pattern: string)
    decreases |text|
  {
    pattern <= text || (text != [] && Contains(text[1..], pattern))
  }

  /** The category chosen in the configuration never reaches either list query. */
  lemma CategoryIgnoredByQuery(c: Config, value: string, tab: string, me: Option<string>, st: Status)
    ensures var c2 := OnSelectedCategory(c, value);
      ClientFilterAsWritten(tab, me, c2.filter.searchText, st) == ClientFilterAsWritten(tab, me, c.filter.searchText, st)
  {
  }

  // ---------------------------------------------------------------- pagination

  /**
   * One section's page: the query result (already sorted) is fetched with `limit + 1`, the first
   * `limit` items are shown, and the extra item only tells whether there are more.
   */
  function Page(matching: seq<ToDo>, limit: nat, ready: bool): (seq<ToDo>, bool) {
    var fetched := if ready then matching[..if |matching| <= limit + 1 then |matching| else limit + 1] else [];
    (fetched[..if |fetched| <= limit then |fetched| else limit], |fetched| > limit)
  }

  /**
   * The one-item peek is exact: `hasMore` holds exactly when more than `limit` items match, and
   * the shown items are the first `limit` of them; nothing shows before the subscriptions are ready.
   */
  lemma PagePeek(matching: seq<ToDo>, limit: nat, ready: bool)
    ensures var (shown, hasMore) := Page(matching, limit, ready);
      && (ready ==> (hasMore <==> |matching| > limit))
      && (ready ==> shown == matching[..if |matching| <= limit then |matching| else limit])
      && (!ready ==> shown == [] && !hasMore)
      && |shown| <= limit
  {
  }

  /** Loading more keeps what was shown and appends to it. */
  lemma LoadMoreExtendsPage(matching: seq<ToDo>, limit: nat)
    ensures var before := Page(matching, limit, true).0;
      var after := Page(matching, limit + PageStep, true).0;
      |before| <= |after| && after[..|before|] == before
  {
    PagePeek(matching, limit, true);
    PagePeek(matching, limit + PageStep, true);
  }

  // ---------------------------------------------------------------- payloads

  /** `changeTaskStatus(task, newStatus)`: the update payload. */
  function ChangeTaskStatus(task: ToDo, newStatus: Status, me: Option<string>): (r: ToDo)
    ensures r.status == Some(newStatus)
    ensures r.kind == OrElse(task.kind, Some("personal"))
    ensures task.kind == Some("personal") || task.kind.None? || task.kind == Some("") ==> r.assigneeId == OrElse(task.assigneeId, me)
    ensures !(task.kind == Some("personal") || task.kind.None? || task.kind == Some("")) ==> r.assigneeId == task.assigneeId
    ensures r == task.(status := r.status, kind := r.kind, assigneeId := r.assigneeId)
  {
    var untypedOrPersonal := task.kind == Some("personal") || task.kind.None? || task.kind == Some("");
    task.(status := Some(newStatus),
          kind := OrElse(task.kind, Some("personal")),
          assigneeId := if untypedOrPersonal then OrElse(task.assigneeId, me) else task.assigneeId)
  }

  /** What the add-task form hands over. */
  datatype NewToDo = NewToDo(title: string, description: string, kind: Option<string>, assigneeId: Option<string>)

  /** `handleSaveToDo(data)`: the inserted document. */
  function SaveToDo(data: NewToDo, me: Option<string>, now: int): (r: ToDo)
    ensures r.title == data.title && r.description == data.description
    ensures r.status == Some(NotConcluded)
    ensures r.kind == OrElse(data.kind, Some("personal"))
    ensures data.kind == Some("personal") ==> r.assigneeId == me
    ensures data.kind != Some("personal") ==> r.assigneeId == OrElse(data.assigneeId, me)
    ensures r.ownerId == OrElse(me, Some("unknown")) && r.ownerId.Some? && r.ownerId.value != ""
    ensures r.date == Some(now) && r.id.None? && r.concludedAt == Unset
  {
    ToDo(None, data.title, data.description, Some(NotConcluded),
         OrElse(data.kind, Some("personal")),
         OrElse(me, Some("unknown")),
         if data.kind == Some("personal") then me else OrElse(data.assigneeId, me),
         Some(now), Unset)
  }

  /**
   * Without a `type`, the task is saved as personal but its assignee is taken from the data:
   * the personal rule (assignee = creator) applies only when `type` is literally 'personal'.
   */
  lemma UntypedTaskKeepsGivenAssignee(title: string, description: string, me: string, other: string, now: int)
    requires me != "" && other != "" && other != me
    ensures var r := SaveToDo(NewToDo(title, description, None, Some(other)), Some(me), now);
      r.kind == Some("personal") && r.assigneeId == Some(other)
  {
  }

  /** The signed-in creator of a task may later update it: it is stored with them as owner. */
  lemma CreatorMayUpdate(data: NewToDo, me: string, now: int, later: int, edit: ToDo)
    requires me != ""
    ensures var stored := SaveToDo(data, Some(me), now);
      ToDoServer.BeforeUpdate(edit, Some(ToDoServer.Caller(Some(me))), Some(stored), later).Success?
  {
  }

  /**
   * Completing a pending task from the list, by its owner or assignee, stamps `concludedAt`
   * on the server; reopening a completed one clears it.
   */
  lemma StatusChangeStampsConclusion(task: ToDo, me: string, now: int)
    requires me != "" && ToDoServer.OwnsOrAssigned(me, task)
    ensures task.status != Some(Concluded) ==>
      var r := ToDoServer.BeforeUpdate(ChangeTaskStatus(task, Concluded, Some(me)), Some(ToDoServer.Caller(Some(me))), Some(task), now);
      r.Success? && r.value.concludedAt == At(now) && r.value.status == Some(Concluded)
    ensures task.status == Some(Concluded) ==>
      var r := ToDoServer.BeforeUpdate(ChangeTaskStatus(task, NotConcluded, Some(me)), Some(ToDoServer.Caller(Some(me))), Some(task), now);
      r.Success? && r.value.concludedAt == NullDate
  {
  }
}
