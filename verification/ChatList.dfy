/** The list of chats: pinned ones, then the others, by project or together, with side chats under their parents. */
module ChatList {
  import opened Wrappers

  datatype Session = Session(
    id: string,
    parentId: Option<string>,
    sideChat: bool,
    pinned: bool,
    working: bool,
    needsInput: bool,
    unseen: bool,
    projectRoot: string)
  {
    predicate NeedsAttention() {
      working || needsInput || unseen
    }

    predicate IsSideChatOf(id: string) {
      sideChat && parentId == Some(id)
    }
  }

  datatype Prefs = Prefs(collapsedSections: seq<string>, groupByProject: bool)

  datatype GroupKind = Pinned | Project(root: string) | Chats

  datatype Row = Row(session: Session, nested: bool)

  datatype Group = Group(kind: GroupKind, total: nat, collapsed: bool, rows: seq<Row>)

  /** What the list is laid out from. */
  datatype Input = Input(sessions: seq<Session>, prefs: Prefs, searching: bool)

  const PINNED_KEY := "agent-pinned"
  const CHATS_KEY := "agent-chats"

  function ProjectKey(root: string): string {
    "agent-project:" + root
  }

  function KeyOf(kind: GroupKind): string {
    match kind
    case Pinned => PINNED_KEY
    case Project(root) => ProjectKey(root)
    case Chats => CHATS_KEY
  }

  predicate Exists(sessions: seq<Session>, id: string) {
    exists i | 0 <= i < |sessions| :: sessions[i].id == id
  }

  /** A side chat whose parent is gone stands on its own. */
  predicate IsTopLevel(sessions: seq<Session>, session: Session) {
    !(session.sideChat && session.parentId.Some? && Exists(sessions, session.parentId.value))
  }

  /** The selections the list is made of. */
  datatype Test =
    | TopLevel(among: seq<Session>)
    | IsPinned(yes: bool)
    | InProject(root: string, yes: bool)
    | OfKind(prefs: Prefs, kind: GroupKind)
    | SideChatOf(id: string)
    | Attention
    | VisibleIn(input: Input)
    | ListedIn(input: Input)
    | ListedChildIn(input: Input)
    | ListedUnder(input: Input, parent: Session)
  {
    ghost predicate Holds(session: Session) {
      match this
      case TopLevel(among) => IsTopLevel(among, session)
      case IsPinned(yes) => session.pinned == yes
      case InProject(root, yes) => (session.projectRoot == root) == yes
      case OfKind(prefs, kind) => KindOf(prefs, session) == kind
      case SideChatOf(id) => session.IsSideChatOf(id)
      case Attention => session.NeedsAttention()
      case VisibleIn(input) => IsVisible(input, session)
      case ListedIn(input) => IsListed(input, session)
      case ListedChildIn(input) => IsListedChild(input, session)
      case ListedUnder(input, parent) => IsListedUnder(input, parent, session)
    }
  }

  ghost function Keep(sessions: seq<Session>, test: Test): (r: seq<Session>)
    ensures |r| <= |sessions|
    ensures forall i | 0 <= i < |r| :: r[i] in sessions && test.Holds(r[i])
  {
    if sessions == [] then []
    else
      var last := sessions[|sessions| - 1];
      Keep(sessions[..|sessions| - 1], test) + if test.Holds(last) then [last] else []
  }

  ghost function Live(sessions: seq<Session>): seq<Session> {
    Keep(sessions, TopLevel(sessions))
  }

  function KindOf(prefs: Prefs, session: Session): GroupKind {
    if session.pinned then Pinned
    else if prefs.groupByProject then Project(session.projectRoot)
    else Chats
  }

  predicate IsCollapsed(input: Input, kind: GroupKind) {
    KeyOf(kind) in input.prefs.collapsedSections && !input.searching
  }

  /** The side chats a session is listed with. */
  ghost function ListedChildren(input: Input, parent: Session, collapsed: bool): seq<Session> {
    var children := Keep(input.sessions, SideChatOf(parent.id));
    if collapsed then Keep(children, Attention) else children
  }

  function Rows(sessions: seq<Session>, nested: bool): (r: seq<Row>)
    ensures |r| == |sessions|
    ensures forall i | 0 <= i < |r| :: r[i] == Row(sessions[i], nested)
  {
    seq(|sessions|, i requires 0 <= i < |sessions| => Row(sessions[i], nested))
  }

  /** A session's own row and those of its side chats. */
  ghost function Family(input: Input, session: Session, collapsed: bool): seq<Row> {
    var children := ListedChildren(input, session, collapsed);
    if collapsed && !session.NeedsAttention() && children == [] then []
    else [Row(session, false)] + Rows(children, true)
  }

  ghost function Families(input: Input, members: seq<Session>, collapsed: bool): seq<Row> {
    if members == [] then []
    else
      Families(input, members[..|members| - 1], collapsed) + Family(input, members[|members| - 1], collapsed)
  }

  ghost function GroupOf(input: Input, kind: GroupKind, members: seq<Session>): Group {
    Group(kind, |members|, IsCollapsed(input, kind), Families(input, members, IsCollapsed(input, kind)))
  }

  /** The projects of some sessions, each once, in the order they first come up. */
  function Projects(sessions: seq<Session>): seq<string> {
    if sessions == [] then []
    else
      var before := Projects(sessions[..|sessions| - 1]);
      var root := sessions[|sessions| - 1].projectRoot;
      if root in before then before else before + [root]
  }

  ghost function ProjectGroups(input: Input, rest: seq<Session>, roots: seq<string>): seq<Group> {
    if roots == [] then []
    else
      var root := roots[|roots| - 1];
      ProjectGroups(input, rest, roots[..|roots| - 1]) +
      [GroupOf(input, Project(root), Keep(rest, InProject(root, true)))]
  }

  ghost function PinnedGroups(input: Input, pinned: seq<Session>): seq<Group> {
    if pinned == [] then [] else [GroupOf(input, Pinned, pinned)]
  }

  ghost function OtherGroups(input: Input, rest: seq<Session>): seq<Group> {
    if input.prefs.groupByProject then ProjectGroups(input, rest, Projects(rest))
    else if rest == [] then []
    else [GroupOf(input, Chats, rest)]
  }

  ghost function Layout(input: Input): seq<Group> {
    var live := Live(input.sessions);
    PinnedGroups(input, Keep(live, IsPinned(true))) + OtherGroups(input, Keep(live, IsPinned(false)))
  }

  /** A session shows up if its group is open, or if it or a side chat of its wants attention. */
  ghost predicate IsVisible(input: Input, session: Session) {
    IsListed(input, session) || IsListedChild(input, session)
  }

  ghost predicate IsListed(input: Input, session: Session) {
    && IsTopLevel(input.sessions, session)
    && (|| !IsCollapsed(input, KindOf(input.prefs, session))
        || session.NeedsAttention()
        || exists c | 0 <= c < |input.sessions| ::
             input.sessions[c].IsSideChatOf(session.id) && input.sessions[c].NeedsAttention())
  }

  ghost predicate IsListedChild(input: Input, session: Session) {
    exists p | 0 <= p < |input.sessions| :: IsListedUnder(input, input.sessions[p], session)
  }

  ghost predicate IsListedUnder(input: Input, parent: Session, session: Session) {
    && IsTopLevel(input.sessions, parent)
    && session.IsSideChatOf(parent.id)
    && (!IsCollapsed(input, KindOf(input.prefs, parent)) || session.NeedsAttention())
  }

  // ---------------------------------------------------------------- the loops

  method KeepPinned(sessions: seq<Session>, yes: bool) returns (r: seq<Session>)
    ensures r == Keep(sessions, IsPinned(yes))
  {
    r := [];
    for i := 0 to |sessions|
      invariant r == Keep(sessions[..i], IsPinned(yes))
    {
      assert sessions[..i + 1][..i] == sessions[..i];
      if sessions[i].pinned == yes {
        r := r + [sessions[i]];
      }
    }
    assert sessions[..|sessions|] == sessions;
  }

  method KeepTopLevel(sessions: seq<Session>) returns (r: seq<Session>)
    ensures r == Live(sessions)
  {
    r := [];
    for i := 0 to |sessions|
      invariant r == Keep(sessions[..i], TopLevel(sessions))
    {
      assert sessions[..i + 1][..i] == sessions[..i];
      if IsTopLevel(sessions, sessions[i]) {
        r := r + [sessions[i]];
      }
    }
    assert sessions[..|sessions|] == sessions;
  }

  method KeepProject(sessions: seq<Session>, root: string) returns (r: seq<Session>)
    ensures r == Keep(sessions, InProject(root, true))
  {
    r := [];
    for i := 0 to |sessions|
      invariant r == Keep(sessions[..i], InProject(root, true))
    {
      assert sessions[..i + 1][..i] == sessions[..i];
      if sessions[i].projectRoot == root {
        r := r + [sessions[i]];
      }
    }
    assert sessions[..|sessions|] == sessions;
  }

  method ChildrenOf(sessions: seq<Session>, parent: Session) returns (r: seq<Session>)
    ensures r == Keep(sessions, SideChatOf(parent.id))
  {
    r := [];
    for i := 0 to |sessions|
      invariant r == Keep(sessions[..i], SideChatOf(parent.id))
    {
      assert sessions[..i + 1][..i] == sessions[..i];
      if sessions[i].IsSideChatOf(parent.id) {
        r := r + [sessions[i]];
      }
    }
    assert sessions[..|sessions|] == sessions;
  }

  method RetainAttention(sessions: seq<Session>) returns (r: seq<Session>)
    ensures r == Keep(sessions, Attention)
  {
    r := [];
    for i := 0 to |sessions|
      invariant r == Keep(sessions[..i], Attention)
    {
      assert sessions[..i + 1][..i] == sessions[..i];
      if sessions[i].NeedsAttention() {
        r := r + [sessions[i]];
      }
    }
    assert sessions[..|sessions|] == sessions;
  }

  method FamilyRows(input: Input, session: Session, collapsed: bool) returns (rows: seq<Row>)
    ensures rows == Family(input, session, collapsed)
  {
    hide Keep;
    var children := ChildrenOf(input.sessions, session);
    if collapsed {
      children := RetainAttention(children);
      if !session.NeedsAttention() && children == [] {
        return [];
      }
    }
    rows := [Row(session, false)];
    rows := rows + Rows(children, true);
  }

  method BuildGroup(input: Input, kind: GroupKind, members: seq<Session>) returns (group: Group)
    ensures group == GroupOf(input, kind, members)
  {
    hide Family;
    var collapsed := KeyOf(kind) in input.prefs.collapsedSections && !input.searching;
    var rows := [];
    for i := 0 to |members|
      invariant rows == Families(input, members[..i], collapsed)
    {
      assert members[..i + 1][..i] == members[..i];
      var family := FamilyRows(input, members[i], collapsed);
      rows := rows + family;
    }
    assert members[..|members|] == members;
    group := Group(kind, |members|, collapsed, rows);
  }

  method CollectProjects(sessions: seq<Session>) returns (roots: seq<string>)
    ensures roots == Projects(sessions)
  {
    roots := [];
    for i := 0 to |sessions|
      invariant roots == Projects(sessions[..i])
    {
      assert sessions[..i + 1][..i] == sessions[..i];
      if sessions[i].projectRoot !in roots {
        roots := roots + [sessions[i].projectRoot];
      }
    }
    assert sessions[..|sessions|] == sessions;
  }

  method BuildProjectGroups(input: Input, rest: seq<Session>) returns (groups: seq<Group>)
    ensures groups == ProjectGroups(input, rest, Projects(rest))
  {
    var roots := CollectProjects(rest);
    groups := [];
    for i := 0 to |roots|
      invariant groups == ProjectGroups(input, rest, roots[..i])
    {
      assert roots[..i + 1][..i] == roots[..i];
      var members := KeepProject(rest, roots[i]);
      var group := BuildGroup(input, Project(roots[i]), members);
      groups := groups + [group];
    }
    assert roots[..|roots|] == roots;
  }

  method LayoutList(input: Input) returns (active: seq<Group>)
    ensures active == Layout(input)
  {
    hide GroupOf, ProjectGroups, Live, Keep;
    var live := KeepTopLevel(input.sessions);
    active := [];
    var pinned := KeepPinned(live, true);
    if pinned != [] {
      var group := BuildGroup(input, Pinned, pinned);
      active := active + [group];
    }
    var rest := KeepPinned(live, false);
    if input.prefs.groupByProject && rest != [] {
      var groups := BuildProjectGroups(input, rest);
      active := active + groups;
    } else if rest != [] {
      var group := BuildGroup(input, Chats, rest);
      active := active + [group];
    } else {
      NoProjectGroups(input, rest);
      assert active + [] == active;
    }
  }

  lemma NoProjectGroups(input: Input, rest: seq<Session>)
    requires rest == []
    ensures ProjectGroups(input, rest, Projects(rest)) == []
  {
  }
}
