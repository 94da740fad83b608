/** Which sessions the list of chats shows: each visible one exactly once, however it is grouped and collapsed. */
module ChatListSafety {
  import opened ChatList

  predicate DistinctIds(sessions: seq<Session>) {
    forall i, j | 0 <= i < j < |sessions| :: sessions[i].id != sessions[j].id
  }

  ghost function AllRows(groups: seq<Group>): seq<Row> {
    if groups == [] then [] else AllRows(groups[..|groups| - 1]) + groups[|groups| - 1].rows
  }

  ghost function Totals(groups: seq<Group>): nat {
    if groups == [] then 0 else Totals(groups[..|groups| - 1]) + groups[|groups| - 1].total
  }

  /** The sessions with a row. */
  ghost function Bag(rows: seq<Row>): multiset<Session> {
    if rows == [] then multiset{} else Bag(rows[..|rows| - 1]) + multiset{rows[|rows| - 1].session}
  }

  lemma {:induction false} BagJoins(a: seq<Row>, b: seq<Row>)
    ensures Bag(a + b) == Bag(a) + Bag(b)
  {
    if b == [] {
      assert a + b == a;
    } else {
      assert (a + b)[..|a + b| - 1] == a + b[..|b| - 1];
      BagJoins(a, b[..|b| - 1]);
    }
  }

  lemma {:induction false} BagOfRows(sessions: seq<Session>, nested: bool)
    ensures Bag(Rows(sessions, nested)) == multiset(sessions)
  {
    if sessions != [] {
      var init, last := sessions[..|sessions| - 1], sessions[|sessions| - 1];
      BagOfRows(init, nested);
      assert Rows(sessions, nested)[..|init|] == Rows(init, nested);
      assert sessions == init + [last];
    }
  }

  // ---------------------------------------------------------------- what each member adds

  /** What is added up over the members of the groups: themselves, or the sessions of their rows. */
  datatype Measure = Itself | Shown(input: Input) {
    ghost function Of(session: Session): multiset<Session> {
      if Itself? then multiset{session}
      else Bag(Family(input, session, IsCollapsed(input, KindOf(input.prefs, session))))
    }
  }

  ghost function Total(members: seq<Session>, measure: Measure): multiset<Session> {
    if members == [] then multiset{}
    else Total(members[..|members| - 1], measure) + measure.Of(members[|members| - 1])
  }

  lemma TotalAppends(members: seq<Session>, last: Session, measure: Measure)
    ensures Total(members + [last], measure) == Total(members, measure) + measure.Of(last)
  {
    assert (members + [last])[..|members|] == members;
  }

  lemma {:induction false} TotalOfItself(members: seq<Session>)
    ensures Total(members, Itself) == multiset(members)
  {
    if members != [] {
      TotalOfItself(members[..|members| - 1]);
      assert members == members[..|members| - 1] + [members[|members| - 1]];
    }
  }

  lemma {:induction false} FamiliesAddUp(input: Input, members: seq<Session>, collapsed: bool)
    requires forall i | 0 <= i < |members| :: IsCollapsed(input, KindOf(input.prefs, members[i])) == collapsed
    ensures Bag(Families(input, members, collapsed)) == Total(members, Shown(input))
  {
    hide Family, IsCollapsed, KindOf;
    if members != [] {
      var n := |members| - 1;
      FamiliesAddUp(input, members[..n], collapsed);
      assert IsCollapsed(input, KindOf(input.prefs, members[n])) == collapsed;
      BagJoins(Families(input, members[..n], collapsed), Family(input, members[n], collapsed));
    }
  }

  lemma KeepAppends(sessions: seq<Session>, last: Session, test: Test)
    ensures Keep(sessions + [last], test) == Keep(sessions, test) + if test.Holds(last) then [last] else []
  {
    hide Test.Holds;
    assert (sessions + [last])[..|sessions|] == sessions;
  }

  lemma TotalOfKept(sessions: seq<Session>, last: Session, test: Test, measure: Measure)
    ensures Total(Keep(sessions + [last], test), measure)
         == Total(Keep(sessions, test), measure) + if test.Holds(last) then measure.Of(last) else multiset{}
  {
    hide Test.Holds, Measure.Of, Keep;
    KeepAppends(sessions, last, test);
    TotalAppends(Keep(sessions, test), last, measure);
    assert Keep(sessions, test) + [] == Keep(sessions, test);
  }

  lemma Regroup(a: multiset<Session>, b: multiset<Session>, c: multiset<Session>)
    ensures a + b + c == a + c + b == a + (b + c)
  {
  }

  /** Two opposite selections share the members between them. */
  lemma {:induction false} SelectionsAddUp(members: seq<Session>, a: Test, b: Test, measure: Measure)
    requires forall i | 0 <= i < |members| :: a.Holds(members[i]) != b.Holds(members[i])
    ensures Total(members, measure) == Total(Keep(members, a), measure) + Total(Keep(members, b), measure)
  {
    hide Test.Holds, Measure.Of, Keep;
    if members == [] {
      assert Keep(members, a) == [] && Keep(members, b) == [];
    } else {
      var init, last := members[..|members| - 1], members[|members| - 1];
      SelectionsAddUp(init, a, b, measure);
      assert init + [last] == members;
      assert a.Holds(members[|init|]) != b.Holds(members[|init|]);
      TotalOfKept(init, last, a, measure);
      TotalOfKept(init, last, b, measure);
      Regroup(Total(Keep(init, a), measure), Total(Keep(init, b), measure), measure.Of(last));
    }
  }

  // ---------------------------------------------------------------- projects

  ghost function ProjectTotals(rest: seq<Session>, roots: seq<string>, measure: Measure): multiset<Session> {
    if roots == [] then multiset{}
    else
      ProjectTotals(rest, roots[..|roots| - 1], measure) +
      Total(Keep(rest, InProject(roots[|roots| - 1], true)), measure)
  }

  lemma {:induction false} ProjectsOnce(sessions: seq<Session>)
    ensures forall i, j | 0 <= i < j < |Projects(sessions)| :: Projects(sessions)[i] != Projects(sessions)[j]
    ensures forall i | 0 <= i < |sessions| :: sessions[i].projectRoot in Projects(sessions)
  {
    if sessions != [] {
      ProjectsOnce(sessions[..|sessions| - 1]);
      forall i | 0 <= i < |sessions| ensures sessions[i].projectRoot in Projects(sessions) {
        if i < |sessions| - 1 {
          assert sessions[..|sessions| - 1][i].projectRoot in Projects(sessions[..|sessions| - 1]);
        }
      }
    }
  }

  lemma {:induction false} OtherProjectsStay(rest: seq<Session>, gone: string, root: string)
    requires root != gone
    ensures Keep(Keep(rest, InProject(gone, false)), InProject(root, true)) == Keep(rest, InProject(root, true))
  {
    if rest != [] {
      var init, last := rest[..|rest| - 1], rest[|rest| - 1];
      OtherProjectsStay(init, gone, root);
      KeepAppends(Keep(init, InProject(gone, false)), last, InProject(root, true));
      assert Keep(init, InProject(gone, false)) + [] == Keep(init, InProject(gone, false));
    }
  }

  lemma {:induction false} OtherTotalsStay(rest: seq<Session>, gone: string, roots: seq<string>, measure: Measure)
    requires gone !in roots
    ensures ProjectTotals(Keep(rest, InProject(gone, false)), roots, measure) == ProjectTotals(rest, roots, measure)
  {
    hide Keep;
    if roots != [] {
      OtherTotalsStay(rest, gone, roots[..|roots| - 1], measure);
      OtherProjectsStay(rest, gone, roots[|roots| - 1]);
    }
  }

  lemma KeptLackRoot(rest: seq<Session>, gone: string, roots: seq<string>)
    requires forall i | 0 <= i < |rest| :: rest[i].projectRoot in roots + [gone]
    ensures forall i | 0 <= i < |Keep(rest, InProject(gone, false))| ::
              Keep(rest, InProject(gone, false))[i].projectRoot in roots
  {
  }

  lemma {:induction false} ProjectsAddUp(rest: seq<Session>, roots: seq<string>, measure: Measure)
    requires forall i, j | 0 <= i < j < |roots| :: roots[i] != roots[j]
    requires forall i | 0 <= i < |rest| :: rest[i].projectRoot in roots
    ensures ProjectTotals(rest, roots, measure) == Total(rest, measure)
    decreases |roots|
  {
    hide Keep, Measure.Of;
    if roots != [] {
      var init, last := roots[..|roots| - 1], roots[|roots| - 1];
      var others := Keep(rest, InProject(last, false));
      assert roots == init + [last];
      KeptLackRoot(rest, last, init);
      ProjectsAddUp(others, init, measure);
      OtherTotalsStay(rest, last, init, measure);
      SelectionsAddUp(rest, InProject(last, true), InProject(last, false), measure);
    } else {
      assert rest == [];
    }
  }

  // ---------------------------------------------------------------- all groups

  lemma {:induction false} RowsJoin(a: seq<Group>, b: seq<Group>)
    ensures Bag(AllRows(a + b)) == Bag(AllRows(a)) + Bag(AllRows(b))
    ensures Totals(a + b) == Totals(a) + Totals(b)
  {
    if b == [] {
      assert a + b == a;
    } else {
      var init, last := b[..|b| - 1], b[|b| - 1];
      assert (a + b)[..|a + b| - 1] == a + init;
      RowsJoin(a, init);
      BagJoins(AllRows(a + init), last.rows);
      BagJoins(AllRows(init), last.rows);
    }
  }

  lemma GroupAddsUp(input: Input, kind: GroupKind, members: seq<Session>)
    requires forall i | 0 <= i < |members| :: KindOf(input.prefs, members[i]) == kind
    ensures Bag(AllRows([GroupOf(input, kind, members)])) == Total(members, Shown(input))
    ensures Totals([GroupOf(input, kind, members)]) == |members|
  {
    hide IsCollapsed, KindOf;
    var group := GroupOf(input, kind, members);
    FamiliesAddUp(input, members, IsCollapsed(input, kind));
    assert [group][..0] == [];
    assert [] + group.rows == group.rows;
  }

  lemma {:induction false} ProjectGroupsAddUp(input: Input, rest: seq<Session>, roots: seq<string>)
    requires input.prefs.groupByProject && forall i | 0 <= i < |rest| :: !rest[i].pinned
    ensures Bag(AllRows(ProjectGroups(input, rest, roots))) == ProjectTotals(rest, roots, Shown(input))
    ensures Totals(ProjectGroups(input, rest, roots)) == |ProjectTotals(rest, roots, Itself)|
  {
    hide GroupOf, Measure.Of;
    if roots != [] {
      var init, last := roots[..|roots| - 1], roots[|roots| - 1];
      var members := Keep(rest, InProject(last, true));
      ProjectGroupsAddUp(input, rest, init);
      GroupAddsUp(input, Project(last), members);
      RowsJoin(ProjectGroups(input, rest, init), [GroupOf(input, Project(last), members)]);
      TotalOfItself(members);
    }
  }

  lemma OthersAddUp(input: Input, rest: seq<Session>)
    requires forall i | 0 <= i < |rest| :: !rest[i].pinned
    ensures Bag(AllRows(OtherGroups(input, rest))) == Total(rest, Shown(input))
    ensures Totals(OtherGroups(input, rest)) == |rest|
  {
    hide GroupOf, Keep, Projects, ProjectGroups, Measure.Of;
    if input.prefs.groupByProject {
      ProjectsOnce(rest);
      ProjectGroupsAddUp(input, rest, Projects(rest));
      ProjectsAddUp(rest, Projects(rest), Shown(input));
      ProjectsAddUp(rest, Projects(rest), Itself);
      TotalOfItself(rest);
    } else if rest != [] {
      GroupAddsUp(input, Chats, rest);
    }
  }

  /** However the list is grouped, its rows are those of the families of the top-level sessions. */
  lemma GroupsAddUp(input: Input)
    ensures Bag(AllRows(Layout(input))) == Total(Live(input.sessions), Shown(input))
    ensures Totals(Layout(input)) == |Live(input.sessions)|
  {
    hide GroupOf, Measure.Of, Live, OtherGroups;
    var live := Live(input.sessions);
    var pinned, rest := Keep(live, IsPinned(true)), Keep(live, IsPinned(false));
    if pinned != [] {
      GroupAddsUp(input, Pinned, pinned);
    }
    OthersAddUp(input, rest);
    RowsJoin(PinnedGroups(input, pinned), OtherGroups(input, rest));
    SelectionsAddUp(live, IsPinned(true), IsPinned(false), Shown(input));
    SelectionsAddUp(live, IsPinned(true), IsPinned(false), Itself);
    TotalOfItself(live);
    TotalOfItself(pinned);
    TotalOfItself(rest);
    assert |multiset(live)| == |multiset(pinned)| + |multiset(rest)|;
  }

  // ---------------------------------------------------------------- families

  lemma {:induction false} ListedChildrenAre(input: Input, sessions: seq<Session>, parent: Session)
    requires IsTopLevel(input.sessions, parent)
    ensures var collapsed := IsCollapsed(input, KindOf(input.prefs, parent));
            Keep(sessions, ListedUnder(input, parent)) ==
              if collapsed then Keep(Keep(sessions, SideChatOf(parent.id)), Attention)
              else Keep(sessions, SideChatOf(parent.id))
  {
    hide IsTopLevel, IsCollapsed, KindOf;
    if sessions != [] {
      var init, last := sessions[..|sessions| - 1], sessions[|sessions| - 1];
      ListedChildrenAre(input, init, parent);
      KeepAppends(Keep(init, SideChatOf(parent.id)), last, Attention);
      assert Keep(init, SideChatOf(parent.id)) + [] == Keep(init, SideChatOf(parent.id));
    }
  }

  lemma {:induction false} KeptAreFound(sessions: seq<Session>, test: Test, i: nat)
    requires i < |sessions| && test.Holds(sessions[i])
    ensures sessions[i] in Keep(sessions, test)
  {
    hide Test.Holds;
    if i < |sessions| - 1 {
      KeptAreFound(sessions[..|sessions| - 1], test, i);
    }
  }

  lemma FamilyIs(input: Input, parent: Session)
    requires IsTopLevel(input.sessions, parent)
    ensures Shown(input).Of(parent) ==
              (if IsListed(input, parent) then multiset{parent} else multiset{})
              + multiset(Keep(input.sessions, ListedUnder(input, parent)))
  {
    hide IsTopLevel, Keep, KindOf, IsCollapsed, IsListed, Bag;
    var collapsed := IsCollapsed(input, KindOf(input.prefs, parent));
    var children := ListedChildren(input, parent, collapsed);
    ListedChildrenAre(input, input.sessions, parent);
    FamilyBag(parent, children);
    ListedExactly(input, parent);
    assert Bag([]) == multiset{} by { BagOfRows([], true); }
  }

  lemma FamilyBag(parent: Session, children: seq<Session>)
    ensures Bag([Row(parent, false)] + Rows(children, true)) == multiset{parent} + multiset(children)
    ensures Rows([], true) == []
  {
    hide Bag;
    BagOfRows(children, true);
    BagOfRows([parent], false);
    BagJoins([Row(parent, false)], Rows(children, true));
    assert Rows([parent], false) == [Row(parent, false)];
  }

  /** A top-level session has a row of its own unless it is collapsed and has nothing to show. */
  lemma ListedExactly(input: Input, parent: Session)
    requires IsTopLevel(input.sessions, parent)
    ensures IsListed(input, parent) <==>
            !IsCollapsed(input, KindOf(input.prefs, parent)) || parent.NeedsAttention()
            || Keep(input.sessions, ListedUnder(input, parent)) != []
  {
    hide IsTopLevel, Keep, KindOf, IsCollapsed;
    var children := Keep(input.sessions, ListedUnder(input, parent));
    if children != [] {
      assert children[0] in input.sessions && ListedUnder(input, parent).Holds(children[0]);
      var c :| 0 <= c < |input.sessions| && input.sessions[c] == children[0];
      assert input.sessions[c].IsSideChatOf(parent.id);
    }
    forall c | 0 <= c < |input.sessions| && input.sessions[c].IsSideChatOf(parent.id) && input.sessions[c].NeedsAttention()
      ensures children != []
    {
      KeptAreFound(input.sessions, ListedUnder(input, parent), c);
    }
  }

  // ---------------------------------------------------------------- each side chat has one parent

  ghost function Children(input: Input, members: seq<Session>, sessions: seq<Session>): multiset<Session> {
    if members == [] then multiset{}
    else
      Children(input, members[..|members| - 1], sessions)
      + multiset(Keep(sessions, ListedUnder(input, members[|members| - 1])))
  }

  ghost predicate HasParentAmong(input: Input, members: seq<Session>, session: Session) {
    exists p | 0 <= p < |members| :: IsListedUnder(input, members[p], session)
  }

  function OneIf(present: bool, session: Session): multiset<Session> {
    if present then multiset{session} else multiset{}
  }

  lemma BothGrow(
    a: multiset<Session>, b: multiset<Session>, more: multiset<Session>, alsoMore: multiset<Session>, p: bool, q: bool,
    session: Session)
    requires more == a + OneIf(p, session) && alsoMore == b + OneIf(q, session) && !(p && q)
    ensures more + alsoMore == a + b + OneIf(p || q, session)
  {
  }

  lemma {:induction false} OneMoreChild(input: Input, members: seq<Session>, sessions: seq<Session>, last: Session)
    requires DistinctIds(members)
    ensures Children(input, members, sessions + [last])
         == Children(input, members, sessions) + OneIf(HasParentAmong(input, members, last), last)
  {
    hide IsListedUnder, Keep, DistinctIds;
    if members == [] {
      assert !HasParentAmong(input, members, last);
    } else {
      hide HasParentAmong, OneIf;
      OneParentMore(input, members, last);
      var init, parent := members[..|members| - 1], members[|members| - 1];
      OneMoreChild(input, init, sessions, last);
      OneMoreKept(sessions, last, ListedUnder(input, parent));
      BothGrow(
        Children(input, init, sessions), multiset(Keep(sessions, ListedUnder(input, parent))),
        Children(input, init, sessions + [last]), multiset(Keep(sessions + [last], ListedUnder(input, parent))),
        HasParentAmong(input, init, last), IsListedUnder(input, parent, last), last);
    }
  }

  lemma OneParentMore(input: Input, members: seq<Session>, session: Session)
    requires DistinctIds(members) && members != []
    ensures var init, parent := members[..|members| - 1], members[|members| - 1];
            && DistinctIds(init)
            && (HasParentAmong(input, members, session) <==>
                HasParentAmong(input, init, session) || IsListedUnder(input, parent, session))
            && !(HasParentAmong(input, init, session) && IsListedUnder(input, parent, session))
  {
    var init, parent := members[..|members| - 1], members[|members| - 1];
    assert forall p | 0 <= p < |init| :: init[p] == members[p];
    if HasParentAmong(input, init, session) {
      var p :| 0 <= p < |init| && IsListedUnder(input, init[p], session);
      assert IsListedUnder(input, members[p], session);
      assert members[p].id != parent.id;
    }
  }

  lemma OneMoreKept(sessions: seq<Session>, last: Session, test: Test)
    ensures multiset(Keep(sessions + [last], test))
         == multiset(Keep(sessions, test)) + OneIf(test.Holds(last), last)
  {
    hide Test.Holds, Keep;
    KeepAppends(sessions, last, test);
    assert Keep(sessions, test) + [] == Keep(sessions, test);
  }

  lemma {:induction false} ChildrenAre(input: Input, members: seq<Session>, sessions: seq<Session>)
    requires DistinctIds(members)
    requires forall i | 0 <= i < |sessions| :: HasParentAmong(input, members, sessions[i]) <==> IsListedChild(input, sessions[i])
    ensures Children(input, members, sessions) == multiset(Keep(sessions, ListedChildIn(input)))
  {
    hide HasParentAmong, IsListedChild, IsListedUnder, DistinctIds, Keep, Children, OneIf;
    if sessions == [] {
      NoChildren(input, members);
    } else {
      var init, last := sessions[..|sessions| - 1], sessions[|sessions| - 1];
      assert HasParentAmong(input, members, sessions[|init|]) <==> IsListedChild(input, sessions[|init|]);
      ChildrenAre(input, members, init);
      assert sessions == init + [last];
      OneMoreChild(input, members, init, last);
      OneMoreKept(init, last, ListedChildIn(input));
      assert Children(input, members, sessions) == Children(input, members, init + [last]);
    }
  }

  lemma {:induction false} NoChildren(input: Input, members: seq<Session>)
    ensures Children(input, members, []) == multiset{}
    ensures Keep([], ListedChildIn(input)) == []
  {
    if members != [] {
      NoChildren(input, members[..|members| - 1]);
    }
  }

  lemma {:induction false} KeepKeepsDistinct(sessions: seq<Session>, test: Test)
    requires DistinctIds(sessions)
    ensures DistinctIds(Keep(sessions, test))
  {
    hide Test.Holds;
    if sessions != [] {
      var init := sessions[..|sessions| - 1];
      KeepKeepsDistinct(init, test);
    }
  }

  lemma ParentsAreLive(input: Input, session: Session)
    ensures HasParentAmong(input, Live(input.sessions), session) <==> IsListedChild(input, session)
  {
    var live := Live(input.sessions);
    if IsListedChild(input, session) {
      var p :| 0 <= p < |input.sessions| && IsListedUnder(input, input.sessions[p], session);
      KeptAreFound(input.sessions, TopLevel(input.sessions), p);
      var k :| 0 <= k < |live| && live[k] == input.sessions[p];
      assert IsListedUnder(input, live[k], session);
    }
    if HasParentAmong(input, live, session) {
      var k :| 0 <= k < |live| && IsListedUnder(input, live[k], session);
      assert live[k] in input.sessions;
      var p :| 0 <= p < |input.sessions| && input.sessions[p] == live[k];
      assert IsListedUnder(input, input.sessions[p], session);
    }
  }

  // ---------------------------------------------------------------- the visible sessions

  lemma SumOfSums(a: multiset<Session>, b: multiset<Session>, c: multiset<Session>, d: multiset<Session>)
    ensures (a + b) + (c + d) == (a + c) + (b + d)
  {
  }

  lemma {:induction false} FamiliesAre(input: Input, members: seq<Session>)
    requires forall i | 0 <= i < |members| :: IsTopLevel(input.sessions, members[i])
    ensures Total(members, Shown(input))
         == multiset(Keep(members, ListedIn(input))) + Children(input, members, input.sessions)
  {
    hide IsTopLevel, IsListed, Measure.Of, Keep;
    if members == [] {
      assert Keep(members, ListedIn(input)) == [];
    } else {
      var init, last := members[..|members| - 1], members[|members| - 1];
      FamiliesAre(input, init);
      FamilyIs(input, last);
      assert members == init + [last];
      KeepAppends(init, last, ListedIn(input));
      var one := if IsListed(input, last) then multiset{last} else multiset{};
      assert multiset(Keep(members, ListedIn(input))) == multiset(Keep(init, ListedIn(input))) + one;
      SumOfSums(
        multiset(Keep(init, ListedIn(input))), Children(input, init, input.sessions),
        one, multiset(Keep(input.sessions, ListedUnder(input, last))));
    }
  }

  lemma {:induction false} ListedAreTopLevel(input: Input, sessions: seq<Session>)
    ensures Keep(Keep(sessions, TopLevel(input.sessions)), ListedIn(input)) == Keep(sessions, ListedIn(input))
  {
    hide IsTopLevel, IsCollapsed, KindOf;
    if sessions != [] {
      var init, last := sessions[..|sessions| - 1], sessions[|sessions| - 1];
      ListedAreTopLevel(input, init);
      KeepAppends(Keep(init, TopLevel(input.sessions)), last, ListedIn(input));
      assert Keep(init, TopLevel(input.sessions)) + [] == Keep(init, TopLevel(input.sessions));
    }
  }

  lemma ChildIsNotTopLevel(input: Input, session: Session)
    requires IsListedChild(input, session)
    ensures !IsTopLevel(input.sessions, session)
  {
    var p :| 0 <= p < |input.sessions| && IsListedUnder(input, input.sessions[p], session);
    assert input.sessions[p].id == session.parentId.value;
  }

  lemma {:induction false} VisibleAreListedOrChildren(input: Input, sessions: seq<Session>)
    ensures multiset(Keep(sessions, VisibleIn(input)))
         == multiset(Keep(sessions, ListedIn(input))) + multiset(Keep(sessions, ListedChildIn(input)))
  {
    hide IsListed, IsListedChild, IsVisible, Keep, OneIf;
    if sessions == [] {
      KeepNothing(VisibleIn(input));
      KeepNothing(ListedIn(input));
      KeepNothing(ListedChildIn(input));
    } else {
      var init, last := sessions[..|sessions| - 1], sessions[|sessions| - 1];
      ListedOrChild(input, last);
      VisibleAreListedOrChildren(input, init);
      assert sessions == init + [last];
      OneMoreKept(init, last, VisibleIn(input));
      OneMoreKept(init, last, ListedIn(input));
      OneMoreKept(init, last, ListedChildIn(input));
      BothGrow(
        multiset(Keep(init, ListedIn(input))), multiset(Keep(init, ListedChildIn(input))),
        multiset(Keep(sessions, ListedIn(input))), multiset(Keep(sessions, ListedChildIn(input))),
        IsListed(input, last), IsListedChild(input, last), last);
      assert VisibleIn(input).Holds(last) == (IsListed(input, last) || IsListedChild(input, last));
      assert multiset(Keep(sessions, VisibleIn(input)))
          == multiset(Keep(init, VisibleIn(input))) + OneIf(VisibleIn(input).Holds(last), last);
    }
  }

  lemma KeepNothing(test: Test)
    ensures Keep([], test) == []
  {
  }

  lemma ListedOrChild(input: Input, session: Session)
    ensures !(IsListed(input, session) && IsListedChild(input, session))
    ensures IsVisible(input, session) <==> IsListed(input, session) || IsListedChild(input, session)
  {
    hide IsTopLevel, KindOf, IsCollapsed;
    if IsListedChild(input, session) {
      ChildIsNotTopLevel(input, session);
    }
  }

  /** The rows of the list, over all its groups, are the visible sessions, each once. */
  lemma RowsAreTheVisibleSessions(input: Input)
    requires DistinctIds(input.sessions)
    ensures Bag(AllRows(Layout(input))) == multiset(Keep(input.sessions, VisibleIn(input)))
  {
    hide IsVisible, IsListed, IsListedChild, IsTopLevel, DistinctIds, AllRows, Layout, HasParentAmong, Measure.Of;
    var live := Live(input.sessions);
    GroupsAddUp(input);
    FamiliesAre(input, live);
    ListedAreTopLevel(input, input.sessions);
    KeepKeepsDistinct(input.sessions, TopLevel(input.sessions));
    forall i | 0 <= i < |input.sessions|
      ensures HasParentAmong(input, live, input.sessions[i]) <==> IsListedChild(input, input.sessions[i])
    {
      ParentsAreLive(input, input.sessions[i]);
    }
    ChildrenAre(input, live, input.sessions);
    VisibleAreListedOrChildren(input, input.sessions);
  }

  lemma {:induction false} BagCounts(rows: seq<Row>, i: nat)
    requires i < |rows|
    ensures rows[i].session in Bag(rows)
    ensures forall j | i < j < |rows| && rows[j].session == rows[i].session :: Bag(rows)[rows[i].session] >= 2
  {
    var n := |rows| - 1;
    if i < n {
      BagCounts(rows[..n], i);
      forall j | i < j < |rows| && rows[j].session == rows[i].session ensures Bag(rows)[rows[i].session] >= 2 {
        assert j < n ==> rows[..n][j].session == rows[..n][i].session;
      }
    }
  }

  lemma {:induction false} BagHolds(rows: seq<Row>, session: Session)
    ensures session in Bag(rows) ==> exists i | 0 <= i < |rows| :: rows[i].session == session
  {
    if rows != [] {
      var n := |rows| - 1;
      BagHolds(rows[..n], session);
      if session in Bag(rows[..n]) {
        var i :| 0 <= i < n && rows[..n][i].session == session;
        assert rows[i].session == session;
      } else if session in Bag(rows) {
        assert rows[n].session == session;
      }
    }
  }

  lemma {:induction false} DistinctCountOne(sessions: seq<Session>, session: Session)
    requires DistinctIds(sessions)
    ensures multiset(sessions)[session] <= 1
  {
    if sessions != [] {
      var init, last := sessions[..|sessions| - 1], sessions[|sessions| - 1];
      DistinctCountOne(init, session);
      assert sessions == init + [last];
      assert forall i | 0 <= i < |init| :: init[i] == sessions[i] && sessions[i].id != last.id;
    }
  }

  /** No session has two rows, in one group or in two. */
  lemma NoSessionHasTwoRows(input: Input)
    requires DistinctIds(input.sessions)
    ensures var rows := AllRows(Layout(input));
            forall i, j | 0 <= i < j < |rows| :: rows[i].session.id != rows[j].session.id
  {
    hide Layout, IsVisible, AllRows;
    var rows := AllRows(Layout(input));
    RowsAreTheVisibleSessions(input);
    KeepKeepsDistinct(input.sessions, VisibleIn(input));
    forall i, j | 0 <= i < j < |rows| ensures rows[i].session.id != rows[j].session.id {
      RowsDiffer(rows, Keep(input.sessions, VisibleIn(input)), i, j);
    }
  }

  lemma RowsDiffer(rows: seq<Row>, visible: seq<Session>, i: nat, j: nat)
    requires i < j < |rows| && DistinctIds(visible) && Bag(rows) == multiset(visible)
    ensures rows[i].session.id != rows[j].session.id
  {
    BagCounts(rows, i);
    BagCounts(rows, j);
    DistinctCountOne(visible, rows[i].session);
    assert rows[i].session in visible && rows[j].session in visible;
    SameIdIsSameSession(visible, rows[i].session, rows[j].session);
  }

  lemma SameIdIsSameSession(sessions: seq<Session>, a: Session, b: Session)
    requires DistinctIds(sessions) && a in sessions && b in sessions && a != b
    ensures a.id != b.id
  {
    var i :| 0 <= i < |sessions| && sessions[i] == a;
    var j :| 0 <= j < |sessions| && sessions[j] == b;
  }

  ghost predicate HasRow(input: Input, session: Session) {
    exists i | 0 <= i < |AllRows(Layout(input))| :: AllRows(Layout(input))[i].session == session
  }

  /** A session has a row exactly if it is visible. */
  lemma SessionHasRowExactly(input: Input, session: Session)
    requires DistinctIds(input.sessions) && session in input.sessions
    ensures HasRow(input, session) <==> IsVisible(input, session)
  {
    hide Layout, IsVisible, AllRows;
    var rows := AllRows(Layout(input));
    RowsAreTheVisibleSessions(input);
    BagHolds(rows, session);
    if i :| 0 <= i < |rows| && rows[i].session == session {
      BagCounts(rows, i);
      assert session in Keep(input.sessions, VisibleIn(input));
    }
    if IsVisible(input, session) {
      var k :| 0 <= k < |input.sessions| && input.sessions[k] == session;
      KeptAreFound(input.sessions, VisibleIn(input), k);
    }
  }

  ghost predicate HasTopLevelParent(sessions: seq<Session>, session: Session) {
    exists p | 0 <= p < |sessions| :: IsTopLevel(sessions, sessions[p]) && session.IsSideChatOf(sessions[p].id)
  }

  lemma EverythingIsVisible(input: Input, session: Session)
    requires input.searching || input.prefs.collapsedSections == []
    ensures IsVisible(input, session) <==> IsTopLevel(input.sessions, session) || HasTopLevelParent(input.sessions, session)
  {
    hide IsTopLevel, KindOf;
    if HasTopLevelParent(input.sessions, session) {
      var p :| 0 <= p < |input.sessions|
        && IsTopLevel(input.sessions, input.sessions[p]) && session.IsSideChatOf(input.sessions[p].id);
      assert IsListedUnder(input, input.sessions[p], session);
    }
    if IsListedChild(input, session) {
      var p :| 0 <= p < |input.sessions| && IsListedUnder(input, input.sessions[p], session);
      assert IsTopLevel(input.sessions, input.sessions[p]) && session.IsSideChatOf(input.sessions[p].id);
    }
  }

  /**
   * A search, and a list with nothing collapsed, has a row for every top-level session and for its direct side chats,
   * and for no side chat of a side chat.
   */
  lemma SearchShowsEverything(input: Input, session: Session)
    requires DistinctIds(input.sessions) && session in input.sessions
    requires input.searching || input.prefs.collapsedSections == []
    ensures HasRow(input, session) <==> IsTopLevel(input.sessions, session) || HasTopLevelParent(input.sessions, session)
  {
    hide IsTopLevel, IsVisible, HasTopLevelParent, Layout, AllRows;
    SessionHasRowExactly(input, session);
    EverythingIsVisible(input, session);
  }

  lemma AttentionIsVisible(input: Input, session: Session)
    requires session.NeedsAttention()
    requires IsTopLevel(input.sessions, session) || HasTopLevelParent(input.sessions, session)
    ensures IsVisible(input, session)
  {
    hide IsTopLevel, KindOf, IsCollapsed;
    if HasTopLevelParent(input.sessions, session) {
      var p :| 0 <= p < |input.sessions|
        && IsTopLevel(input.sessions, input.sessions[p]) && session.IsSideChatOf(input.sessions[p].id);
      assert IsListedUnder(input, input.sessions[p], session);
    }
  }

  function Expanded(input: Input): Input {
    input.(prefs := input.prefs.(collapsedSections := []))
  }

  /** Whatever is collapsed, a session that needs attention keeps the row it has when nothing is. */
  lemma AttentionIsNeverHidden(input: Input, session: Session)
    requires DistinctIds(input.sessions) && session in input.sessions && session.NeedsAttention()
    ensures HasRow(input, session) <==> HasRow(Expanded(input), session)
  {
    hide IsTopLevel, IsVisible, HasTopLevelParent, Layout, AllRows, DistinctIds;
    SessionHasRowExactly(input, session);
    SearchShowsEverything(Expanded(input), session);
    if IsVisible(input, session) {
      VisibleIsReachable(input, session);
    }
    if IsTopLevel(input.sessions, session) || HasTopLevelParent(input.sessions, session) {
      AttentionIsVisible(input, session);
    }
  }

  lemma VisibleIsReachable(input: Input, session: Session)
    requires IsVisible(input, session)
    ensures IsTopLevel(input.sessions, session) || HasTopLevelParent(input.sessions, session)
  {
    hide IsTopLevel, KindOf, IsCollapsed;
    if IsListedChild(input, session) {
      var p :| 0 <= p < |input.sessions| && IsListedUnder(input, input.sessions[p], session);
      assert IsTopLevel(input.sessions, input.sessions[p]) && session.IsSideChatOf(input.sessions[p].id);
    }
  }

  /** The counts beside the headings add up to the number of top-level sessions. */
  lemma TotalsAddUp(input: Input)
    ensures Totals(Layout(input)) == |Keep(input.sessions, TopLevel(input.sessions))|
  {
    GroupsAddUp(input);
  }

  // ---------------------------------------------------------------- order

  function Tops(rows: seq<Row>): seq<Session> {
    if rows == [] then []
    else
      var last := rows[|rows| - 1];
      Tops(rows[..|rows| - 1]) + if last.nested then [] else [last.session]
  }

  lemma {:induction false} NestedAreNoTops(rows: seq<Row>, children: seq<Session>)
    ensures Tops(rows + Rows(children, true)) == Tops(rows)
  {
    var all := rows + Rows(children, true);
    if children == [] {
      assert all == rows;
    } else {
      var init := children[..|children| - 1];
      NestedAreNoTops(rows, init);
      assert all[..|all| - 1] == rows + Rows(init, true);
    }
  }

  /** The top-level sessions a group is for. */
  ghost function Members(input: Input, kind: GroupKind): seq<Session> {
    Keep(Live(input.sessions), OfKind(input.prefs, kind))
  }

  lemma {:induction false} KeepTwice(sessions: seq<Session>, a: Test, b: Test, both: Test)
    requires forall i | 0 <= i < |sessions| ::
      both.Holds(sessions[i]) == (a.Holds(sessions[i]) && b.Holds(sessions[i]))
    ensures Keep(Keep(sessions, a), b) == Keep(sessions, both)
  {
    hide Test.Holds, Keep;
    if sessions == [] {
      KeepNothing(a);
      KeepNothing(b);
      KeepNothing(both);
    } else {
      var init, last := sessions[..|sessions| - 1], sessions[|sessions| - 1];
      assert forall i | 0 <= i < |init| :: init[i] == sessions[i];
      assert both.Holds(sessions[|init|]) == (a.Holds(sessions[|init|]) && b.Holds(sessions[|init|]));
      KeepTwice(init, a, b, both);
      assert sessions == init + [last];
      KeepAppends(init, last, a);
      KeepAppends(Keep(init, a), last, b);
      KeepAppends(init, last, both);
      assert Keep(init, a) + [] == Keep(init, a) && Keep(init, both) + [] == Keep(init, both);
    }
  }

  lemma {:induction false} KeepAgrees(sessions: seq<Session>, a: Test, b: Test)
    requires forall i | 0 <= i < |sessions| :: a.Holds(sessions[i]) == b.Holds(sessions[i])
    ensures Keep(sessions, a) == Keep(sessions, b)
  {
    hide Test.Holds;
    if sessions != [] {
      var init := sessions[..|sessions| - 1];
      assert forall i | 0 <= i < |init| :: init[i] == sessions[i];
      KeepAgrees(init, a, b);
      assert a.Holds(sessions[|init|]) == b.Holds(sessions[|init|]);
    }
  }

  lemma {:induction false} ProjectGroupIs(input: Input, rest: seq<Session>, roots: seq<string>, g: nat)
    requires g < |ProjectGroups(input, rest, roots)|
    ensures g < |roots|
    ensures ProjectGroups(input, rest, roots)[g]
         == GroupOf(input, Project(roots[g]), Keep(rest, InProject(roots[g], true)))
  {
    hide GroupOf, Keep;
    var n := |roots| - 1;
    if g < |ProjectGroups(input, rest, roots[..n])| {
      ProjectGroupIs(input, rest, roots[..n], g);
    } else {
      ProjectGroupsCount(input, rest, roots[..n]);
    }
  }

  lemma {:induction false} ProjectGroupsCount(input: Input, rest: seq<Session>, roots: seq<string>)
    ensures |ProjectGroups(input, rest, roots)| == |roots|
  {
    hide GroupOf, Keep;
    if roots != [] {
      ProjectGroupsCount(input, rest, roots[..|roots| - 1]);
    }
  }

  /** Each group of the list shows the families of the top-level sessions of its kind. */
  lemma GroupShowsItsKind(input: Input, g: nat)
    requires g < |Layout(input)|
    ensures var group := Layout(input)[g]; group == GroupOf(input, group.kind, Members(input, group.kind))
  {
    hide GroupOf, ProjectGroups, Projects, Live, Keep;
    var live := Live(input.sessions);
    var pinned, rest := Keep(live, IsPinned(true)), Keep(live, IsPinned(false));
    if g < |PinnedGroups(input, pinned)| {
      KeepAgrees(live, IsPinned(true), OfKind(input.prefs, Pinned));
      KindOfGroup(input, Pinned, pinned);
    } else if input.prefs.groupByProject {
      var at := g - |PinnedGroups(input, pinned)|;
      ProjectGroupIs(input, rest, Projects(rest), at);
      var root := Projects(rest)[at];
      KeepTwice(live, IsPinned(false), InProject(root, true), OfKind(input.prefs, Project(root)));
      KindOfGroup(input, Project(root), Keep(rest, InProject(root, true)));
    } else {
      KeepAgrees(live, IsPinned(false), OfKind(input.prefs, Chats));
      KindOfGroup(input, Chats, rest);
    }
  }

  lemma KindOfGroup(input: Input, kind: GroupKind, members: seq<Session>)
    ensures GroupOf(input, kind, members).kind == kind
  {
  }

  /** A member's row, with the rows of all its side chats right behind it, in the order of the sessions. */
  ghost predicate FamilyStands(input: Input, rows: seq<Row>, members: seq<Session>, m: nat)
    requires m < |members|
  {
    var at := |Families(input, members[..m], false)|;
    var children := Keep(input.sessions, SideChatOf(members[m].id));
    && at + 1 + |children| == |Families(input, members[..m + 1], false)| <= |rows|
    && rows[at] == Row(members[m], false)
    && rows[at + 1..at + 1 + |children|] == Rows(children, true)
  }

  lemma {:induction false} FamilyStandsInItsPlace(input: Input, members: seq<Session>, m: nat)
    requires m < |members|
    ensures FamilyStands(input, Families(input, members, false), members, m)
  {
    hide Keep;
    var init, last := members[..|members| - 1], members[|members| - 1];
    var before := Families(input, init, false);
    var children := ListedChildren(input, last, false);
    assert Families(input, members, false) == before + [Row(last, false)] + Rows(children, true);
    assert members[..|members|] == members;
    if m < |init| {
      FamilyStandsInItsPlace(input, init, m);
      assert init[..m] == members[..m] && init[..m + 1] == members[..m + 1];
      FamilyStaysInPlace(input, before, [Row(last, false)] + Rows(children, true), init, m);
      assert before + [Row(last, false)] + Rows(children, true) == before + ([Row(last, false)] + Rows(children, true));
    }
  }

  lemma FamilyStaysInPlace(input: Input, rows: seq<Row>, more: seq<Row>, members: seq<Session>, m: nat)
    requires m < |members| && FamilyStands(input, rows, members, m)
    ensures FamilyStands(input, rows + more, members, m)
  {
    hide Keep, Families;
    var at := |Families(input, members[..m], false)|;
    var children := Keep(input.sessions, SideChatOf(members[m].id));
    assert (rows + more)[at + 1..at + 1 + |children|] == rows[at + 1..at + 1 + |children|];
  }

  lemma {:induction false} FamiliesBeginWithMembers(input: Input, members: seq<Session>)
    ensures Tops(Families(input, members, false)) == members
  {
    hide Keep;
    if members != [] {
      var init, last := members[..|members| - 1], members[|members| - 1];
      var before := Families(input, init, false);
      var children := ListedChildren(input, last, false);
      FamiliesBeginWithMembers(input, init);
      assert Families(input, members, false) == before + [Row(last, false)] + Rows(children, true);
      NestedAreNoTops(before + [Row(last, false)], children);
      assert (before + [Row(last, false)])[..|before|] == before;
    }
  }

  /** An open group of the list shows the top-level sessions of its kind, each followed by exactly its side chats. */
  lemma OpenGroupShowsMembersInOrder(input: Input, g: nat)
    requires g < |Layout(input)| && !Layout(input)[g].collapsed
    ensures var group := Layout(input)[g];
            var members := Members(input, group.kind);
            && Tops(group.rows) == members
            && (forall m | 0 <= m < |members| :: FamilyStands(input, group.rows, members, m))
  {
    hide Layout, Keep, Families, FamilyStands, Members;
    GroupShowsItsKind(input, g);
    var members := Members(input, Layout(input)[g].kind);
    FamiliesBeginWithMembers(input, members);
    forall m | 0 <= m < |members| ensures FamilyStands(input, Families(input, members, false), members, m) {
      FamilyStandsInItsPlace(input, members, m);
    }
  }

  lemma {:induction false} KeepIsInOrder(sessions: seq<Session>, test: Test, i: nat, j: nat) returns (a: nat, b: nat)
    requires i < j < |Keep(sessions, test)|
    ensures a < b < |sessions| && sessions[a] == Keep(sessions, test)[i] && sessions[b] == Keep(sessions, test)[j]
  {
    hide Test.Holds;
    var n := |sessions| - 1;
    var before := Keep(sessions[..n], test);
    if j < |before| {
      a, b := KeepIsInOrder(sessions[..n], test, i, j);
    } else {
      assert before[i] in sessions[..n];
      a :| 0 <= a < n && sessions[..n][a] == before[i];
      b := n;
    }
  }

  /** A group keeps the order of the sessions. */
  lemma MembersKeepTheOrder(input: Input, kind: GroupKind, i: nat, j: nat) returns (a: nat, b: nat)
    requires i < j < |Members(input, kind)|
    ensures a < b < |input.sessions|
    ensures input.sessions[a] == Members(input, kind)[i] && input.sessions[b] == Members(input, kind)[j]
  {
    hide Keep;
    var x, y := KeepIsInOrder(Live(input.sessions), OfKind(input.prefs, kind), i, j);
    a, b := KeepIsInOrder(input.sessions, TopLevel(input.sessions), x, y);
  }

  // ---------------------------------------------------------------- the order of the groups

  lemma {:induction false} UnknownProjectIsEmpty(sessions: seq<Session>, root: string)
    requires root !in Projects(sessions)
    ensures Keep(sessions, InProject(root, true)) == []
  {
    if sessions != [] {
      UnknownProjectIsEmpty(sessions[..|sessions| - 1], root);
    }
  }

  lemma {:induction false} ProjectStarts(sessions: seq<Session>, i: nat) returns (p: nat)
    requires i < |Projects(sessions)|
    ensures p < |sessions|
    ensures var kept := Keep(sessions, InProject(Projects(sessions)[i], true)); kept != [] && kept[0] == sessions[p]
  {
    var init, last := sessions[..|sessions| - 1], sessions[|sessions| - 1];
    var before := Projects(init);
    if i < |before| {
      p := ProjectStarts(init, i);
    } else {
      p := |init|;
      UnknownProjectIsEmpty(init, last.projectRoot);
    }
  }

  lemma {:induction false} ProjectsStartInOrder(sessions: seq<Session>, i: nat, j: nat) returns (p: nat, q: nat)
    requires i < j < |Projects(sessions)|
    ensures p < q < |sessions|
    ensures var a := Keep(sessions, InProject(Projects(sessions)[i], true)); a != [] && a[0] == sessions[p]
    ensures var b := Keep(sessions, InProject(Projects(sessions)[j], true)); b != [] && b[0] == sessions[q]
  {
    var init, last := sessions[..|sessions| - 1], sessions[|sessions| - 1];
    var before := Projects(init);
    if j < |before| {
      p, q := ProjectsStartInOrder(init, i, j);
    } else {
      p := ProjectStarts(init, i);
      q := |init|;
      UnknownProjectIsEmpty(init, last.projectRoot);
    }
  }

  ghost function Unpinned(input: Input): seq<Session> {
    Keep(Live(input.sessions), IsPinned(false))
  }

  /** How many groups stand before the projects. */
  ghost function PinnedCount(input: Input): nat {
    if Keep(Live(input.sessions), IsPinned(true)) == [] then 0 else 1
  }

  lemma KindAt(input: Input, g: nat)
    requires g < |Layout(input)|
    ensures var kind, n := Layout(input)[g].kind, PinnedCount(input);
            && (g < n ==> kind == Pinned)
            && (g >= n && input.prefs.groupByProject ==>
                  g - n < |Projects(Unpinned(input))| && kind == Project(Projects(Unpinned(input))[g - n]))
            && (g >= n && !input.prefs.groupByProject ==> g == n && kind == Chats)
  {
    hide Keep, Families, Projects, ProjectGroups, Live;
    if g >= PinnedCount(input) && input.prefs.groupByProject {
      ProjectGroupIs(input, Unpinned(input), Projects(Unpinned(input)), g - PinnedCount(input));
    }
  }

  lemma MembersOfProject(input: Input, root: string)
    requires input.prefs.groupByProject
    ensures Members(input, Project(root)) == Keep(Unpinned(input), InProject(root, true))
  {
    hide Keep, Live;
    KeepTwice(Live(input.sessions), IsPinned(false), InProject(root, true), OfKind(input.prefs, Project(root)));
  }

  /**
   * Pinned chats come first. Behind them each project has one group, and the groups stand in the order in which the
   * sessions first name their projects.
   */
  lemma GroupsStandInOrder(input: Input, g: nat, h: nat) returns (a: nat, b: nat)
    requires g < h < |Layout(input)|
    ensures Layout(input)[g].kind != Layout(input)[h].kind && Layout(input)[h].kind != Pinned
    ensures Layout(input)[g].kind != Pinned ==>
              var first, second := Members(input, Layout(input)[g].kind), Members(input, Layout(input)[h].kind);
              && a < b < |input.sessions| && first != [] && second != []
              && input.sessions[a] == first[0] && input.sessions[b] == second[0]
  {
    hide Layout, Keep, Projects, Live, Members, Unpinned;
    KindAt(input, g);
    KindAt(input, h);
    a, b := 0, 0;
    if g >= PinnedCount(input) {
      a, b := ProjectsStandInOrder(input, g - PinnedCount(input), h - PinnedCount(input));
    }
  }

  lemma ProjectsStandInOrder(input: Input, i: nat, j: nat) returns (a: nat, b: nat)
    requires input.prefs.groupByProject && i < j < |Projects(Unpinned(input))|
    ensures var roots := Projects(Unpinned(input));
            var first, second := Members(input, Project(roots[i])), Members(input, Project(roots[j]));
            && roots[i] != roots[j]
            && a < b < |input.sessions| && first != [] && second != []
            && input.sessions[a] == first[0] && input.sessions[b] == second[0]
  {
    var rest := Unpinned(input);
    hide Keep, Projects, Live, Members;
    ProjectsOnce(rest);
    var p, q := ProjectsStartInOrder(rest, i, j);
    MembersOfProject(input, Projects(rest)[i]);
    MembersOfProject(input, Projects(rest)[j]);
    var c, d := KeepIsInOrder(Live(input.sessions), IsPinned(false), p, q);
    a, b := LiveIsInOrder(input, c, d);
  }

  lemma LiveIsInOrder(input: Input, c: nat, d: nat) returns (a: nat, b: nat)
    requires c < d < |Live(input.sessions)|
    ensures a < b < |input.sessions|
    ensures input.sessions[a] == Live(input.sessions)[c] && input.sessions[b] == Live(input.sessions)[d]
  {
    a, b := KeepIsInOrder(input.sessions, TopLevel(input.sessions), c, d);
  }

  /** Every top-level session has its group, and no group is empty. */
  lemma GroupsAreThoseWithMembers(input: Input, g: nat)
    requires g < |Layout(input)|
    ensures Layout(input)[g].total == |Members(input, Layout(input)[g].kind)| > 0
  {
    KindAt(input, g);
    GroupShowsItsKind(input, g);
    var n := PinnedCount(input);
    if g >= n && input.prefs.groupByProject {
      hide Layout, Keep, Projects, Live, Members, Families;
      var p := ProjectStarts(Unpinned(input), g - n);
      MembersOfProject(input, Projects(Unpinned(input))[g - n]);
    } else {
      hide Families, ProjectGroups, Live, Keep;
    }
  }
}
