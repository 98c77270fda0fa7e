/**
 * A snapshot session as a client sees it: frozen pages, each naming the next by a signed reference.
 * References are taken as injective in the session and the position they were signed for.
 */
module SnapshotWalk {
  import opened Common
  import opened GroupTypes
  import opened SnapshotPaging

  datatype Section = ReadStates | Groups | RecentPlainMessages | SystemNotifications

  datatype PageRef = PageRef(recovery: Token, position: nat)

  datatype SectionPage = SectionPage(section: Section, items: Page)

  datatype StoredPage = StoredPage(page: SectionPage, ref: PageRef, next: Option<PageRef>)

  function Tagged(section: Section, pages: seq<Page>): (r: seq<SectionPage>)
    ensures |r| == |pages|
  {
    if pages == [] then [] else [SectionPage(section, pages[0])] + Tagged(section, pages[1..])
  }

  predicate Packable(p: Package) {
    Sized(p.readStates) && Sized(p.groups) && Sized(p.messages) && Sized(p.notifications)
  }

  /** The pages of the four sections, before the page that stands for an empty package. */
  function SectionPages(p: Package): seq<SectionPage>
    requires Packable(p)
  {
    Tagged(ReadStates, Greedy(p.readStates)) + Tagged(Groups, Greedy(p.groups))
    + Tagged(RecentPlainMessages, Greedy(p.messages)) + Tagged(SystemNotifications, Greedy(p.notifications))
  }

  /** `paginate_sections`: an empty package still gets one page. */
  function PagesOf(p: Package): (pages: seq<SectionPage>)
    requires Packable(p)
    ensures pages != []
  {
    if SectionPages(p) == [] then [SectionPage(ReadStates, [])] else SectionPages(p)
  }

  /** The rows of `_issue_snapshot_recovery`: every page but the last names its successor. */
  function Session(recovery: Token, pages: seq<SectionPage>): (stored: seq<StoredPage>)
    ensures |stored| == |pages|
    ensures forall i :: 0 <= i < |pages| ==> stored[i].page == pages[i] && stored[i].ref == PageRef(recovery, i)
    ensures forall i :: 0 <= i < |pages| ==> stored[i].next == if i < |pages| - 1 then Some(PageRef(recovery, i + 1)) else None
  {
    seq(|pages|, i requires 0 <= i < |pages| =>
      StoredPage(pages[i], PageRef(recovery, i), if i < |pages| - 1 then Some(PageRef(recovery, i + 1)) else None))
  }

  /** `next(item for item in pages if ...)` in `sync_snapshot`; without a reference, the first page. */
  function Find(stored: seq<StoredPage>, ref: PageRef): Option<StoredPage> {
    if stored == [] then None else if stored[0].ref == ref then Some(stored[0]) else Find(stored[1..], ref)
  }

  function Fetch(stored: seq<StoredPage>, ref: Option<PageRef>): Option<StoredPage> {
    if ref.Some? then Find(stored, ref.value) else if stored == [] then None else Some(stored[0])
  }

  lemma {:induction false} FindsByRef(stored: seq<StoredPage>, i: nat)
    requires i < |stored| && forall j, k :: 0 <= j < k < |stored| ==> stored[j].ref != stored[k].ref
    ensures Find(stored, stored[i].ref) == Some(stored[i])
  {
    if i > 0 {
      FindsByRef(stored[1..], i - 1);
      assert stored[1..][i - 1] == stored[i];
    }
  }

  /** A reference that no page of the session carries is refused. */
  lemma {:induction false} StrangeRefIsRefused(stored: seq<StoredPage>, ref: PageRef)
    requires forall j :: 0 <= j < |stored| ==> stored[j].ref != ref
    ensures Fetch(stored, Some(ref)) == None
  {
    if stored != [] {
      StrangeRefIsRefused(stored[1..], ref);
    }
  }

  /** The client's walk: from the first page along the references until a page names no successor. */
  method Walk(recovery: Token, pages: seq<SectionPage>) returns (visited: seq<StoredPage>)
    requires pages != []
    ensures visited == Session(recovery, pages)
  {
    hide Session, Find;
    var stored := Session(recovery, pages);
    var page := stored[0];
    visited := [page];
    while page.next.Some?
      invariant 1 <= |visited| <= |stored| && visited == stored[..|visited|] && page == stored[|visited| - 1]
      decreases |stored| - |visited|
    {
      FindsByRef(stored, |visited|);
      page := Fetch(stored, page.next).value;
      visited := visited + [page];
    }
  }

  // ------------------------------------------------------------------------------------------
  // What the walk brings home
  // ------------------------------------------------------------------------------------------

  /** The items of one section, joined in the order of the pages. */
  function Collect(pages: seq<SectionPage>, section: Section): seq<Item> {
    if pages == [] then []
    else (if pages[0].section == section then pages[0].items else []) + Collect(pages[1..], section)
  }

  function ReturnedItems(pages: seq<SectionPage>): nat {
    if pages == [] then 0 else |pages[0].items| + ReturnedItems(pages[1..])
  }

  lemma JoinsAssociate(a: seq<Item>, b: seq<Item>, c: seq<Item>)
    ensures a + (b + c) == (a + b) + c
  {
  }

  lemma {:induction false} CollectConcat(a: seq<SectionPage>, b: seq<SectionPage>, section: Section)
    ensures Collect(a + b, section) == Collect(a, section) + Collect(b, section)
    ensures ReturnedItems(a + b) == ReturnedItems(a) + ReturnedItems(b)
  {
    if a == [] {
      assert a + b == b;
    } else {
      CollectConcat(a[1..], b, section);
      assert (a + b)[1..] == a[1..] + b;
      var first := if a[0].section == section then a[0].items else [];
      JoinsAssociate(first, Collect(a[1..], section), Collect(b, section));
    }
  }

  lemma {:induction false} CollectTagged(pages: seq<Page>, tag: Section, section: Section)
    ensures Collect(Tagged(tag, pages), section) == if tag == section then Concat(pages) else []
    ensures ReturnedItems(Tagged(tag, pages)) == |Concat(pages)|
  {
    if pages != [] {
      CollectTagged(pages[1..], tag, section);
      assert Tagged(tag, pages)[1..] == Tagged(tag, pages[1..]);
    }
  }

  function SectionOf(p: Package, section: Section): seq<Item> {
    match section
    case ReadStates => p.readStates
    case Groups => p.groups
    case RecentPlainMessages => p.messages
    case SystemNotifications => p.notifications
  }

  function TotalItems(p: Package): nat {
    |p.readStates| + |p.groups| + |p.messages| + |p.notifications|
  }

  lemma TaggedSection(items: seq<Item>, tag: Section, section: Section)
    requires Sized(items)
    ensures Collect(Tagged(tag, Greedy(items)), section) == if tag == section then items else []
    ensures ReturnedItems(Tagged(tag, Greedy(items))) == |items|
  {
    CollectTagged(Greedy(items), tag, section);
    GreedyIsSplit(items);
  }

  lemma SectionPagesRebuild(p: Package, section: Section)
    requires Packable(p)
    ensures Collect(SectionPages(p), section) == SectionOf(p, section)
    ensures ReturnedItems(SectionPages(p)) == TotalItems(p)
  {
    hide Greedy, Sized, Collect, ReturnedItems, Tagged;
    TaggedSection(p.readStates, ReadStates, section);
    TaggedSection(p.groups, Groups, section);
    TaggedSection(p.messages, RecentPlainMessages, section);
    TaggedSection(p.notifications, SystemNotifications, section);
    CollectFour(Tagged(ReadStates, Greedy(p.readStates)), Tagged(Groups, Greedy(p.groups)),
                Tagged(RecentPlainMessages, Greedy(p.messages)), Tagged(SystemNotifications, Greedy(p.notifications)), section);
  }

  /** The pages, joined section by section, are the package; their item counts add up to the manifest's. */
  lemma PagesRebuildPackage(p: Package, section: Section)
    requires Packable(p)
    ensures Collect(PagesOf(p), section) == SectionOf(p, section)
    ensures ReturnedItems(PagesOf(p)) == TotalItems(p)
  {
    hide SectionPages, SectionOf, Collect, ReturnedItems, Packable;
    SectionPagesRebuild(p, section);
    EmptyPageIsNothing(section);
  }

  lemma CollectFour(a: seq<SectionPage>, b: seq<SectionPage>, c: seq<SectionPage>, d: seq<SectionPage>, section: Section)
    ensures Collect(a + b + c + d, section) == Collect(a, section) + Collect(b, section) + Collect(c, section) + Collect(d, section)
    ensures ReturnedItems(a + b + c + d) == ReturnedItems(a) + ReturnedItems(b) + ReturnedItems(c) + ReturnedItems(d)
  {
    CollectConcat(a + b + c, d, section);
    CollectConcat(a + b, c, section);
    CollectConcat(a, b, section);
  }

  lemma EmptyPageIsNothing(section: Section)
    ensures Collect([SectionPage(ReadStates, [])], section) == [] && ReturnedItems([SectionPage(ReadStates, [])]) == 0
    ensures Collect([], section) == [] && ReturnedItems([]) == 0
  {
    assert [SectionPage(ReadStates, [])][1..] == [];
  }

  /** At most a hundred pages, and one even for nothing. */
  lemma PageNumber(p: Package)
    requires Packable(p)
    ensures AllSized(p.Sections())
    ensures |PagesOf(p)| == Max(1, TotalPages(p.Sections()))
  {
    hide Greedy, Sized;
    var all := p.Sections();
    assert all[0] == p.readStates && all[1] == p.groups && all[2] == p.messages && all[3] == p.notifications;
    PagesOfFour(p);
  }

  lemma PagesOfFour(p: Package)
    requires AllSized(p.Sections()) && Packable(p)
    ensures TotalPages(p.Sections()) == PageCount(p.readStates) + PageCount(p.groups) + PageCount(p.messages) + PageCount(p.notifications)
  {
    hide Greedy, Sized;
    var all := p.Sections();
    assert all[1..] == [p.groups, p.messages, p.notifications] && all[1..][1..] == [p.messages, p.notifications];
    assert all[1..][1..][1..] == [p.notifications] && all[1..][1..][1..][1..] == [];
    assert TotalPages(all[1..][1..][1..]) == PageCount(p.notifications) + TotalPages(all[1..][1..][1..][1..]);
    assert TotalPages(all[1..][1..]) == PageCount(p.messages) + TotalPages(all[1..][1..][1..]);
    assert TotalPages(all[1..]) == PageCount(p.groups) + TotalPages(all[1..][1..]);
    assert TotalPages(all) == PageCount(p.readStates) + TotalPages(all[1..]);
  }

  predicate Decreasing(messages: seq<Item>) {
    forall i, j :: 0 <= i < j < |messages| ==> messages[i].eventSeq > messages[j].eventSeq
  }

  predicate Increasing(messages: seq<Item>) {
    forall i, j :: 0 <= i < j < |messages| ==> messages[i].eventSeq < messages[j].eventSeq
  }

  /** The pages of a selection hold each section exactly, within a hundred pages, the messages in increasing event order. */
  lemma PagesRebuildSelection(readStates: seq<Item>, groups: seq<Item>, notifications: seq<Item>, messages: seq<Item>, section: Section)
    requires Select(readStates, groups, notifications, messages).Ok? && Decreasing(messages)
    ensures var s := Select(readStates, groups, notifications, messages).value;
            && Packable(s.package)
            && Collect(PagesOf(s.package), section) == SectionOf(s.package, section)
            && ReturnedItems(PagesOf(s.package)) == TotalItems(s.package)
            && |PagesOf(s.package)| <= MAX_PAGES
            && Increasing(Collect(PagesOf(s.package), RecentPlainMessages))
            && s.choice.count <= |messages| && |s.package.messages| == s.choice.count
            && forall i :: 0 <= i < s.choice.count ==> s.package.messages[i] == messages[s.choice.count - 1 - i]
  {
    hide Paginate, Choose, Greedy, TotalPages, Bytes, Collect, PagesOf;
    var s := Select(readStates, groups, notifications, messages).value;
    SelectedPackagePages(readStates, groups, notifications, messages);
    var all := s.package.Sections();
    assert Sized(all[0]) && Sized(all[1]) && Sized(all[2]) && Sized(all[3]);
    PagesRebuildPackage(s.package, section);
    PagesRebuildPackage(s.package, RecentPlainMessages);
    PageNumber(s.package);
  }

  /** SECTION_ORDER. */
  function Rank(section: Section): nat {
    match section
    case ReadStates => 0
    case Groups => 1
    case RecentPlainMessages => 2
    case SystemNotifications => 3
  }

  /** Sections follow each other in their order, and no page is empty or beyond its limits. */
  ghost predicate Orderly(pages: seq<SectionPage>) {
    && (forall i, j :: 0 <= i < j < |pages| ==> Rank(pages[i].section) <= Rank(pages[j].section))
    && (forall i :: 0 <= i < |pages| ==> 1 <= |pages[i].items| <= 100 && Bytes(pages[i].items) <= 1_048_576)
  }

  lemma {:induction false} TaggedAre(tag: Section, pages: seq<Page>)
    ensures forall i :: 0 <= i < |pages| ==> Tagged(tag, pages)[i] == SectionPage(tag, pages[i])
  {
    if pages != [] {
      TaggedAre(tag, pages[1..]);
    }
  }

  lemma TaggedIsOrderly(items: seq<Item>, tag: Section)
    requires Sized(items)
    ensures Orderly(Tagged(tag, Greedy(items))) && forall i :: 0 <= i < |Greedy(items)| ==> Tagged(tag, Greedy(items))[i].section == tag
  {
    hide Greedy, Tagged, Bytes;
    TaggedAre(tag, Greedy(items));
    GreedyIsSplit(items);
  }

  lemma OrderlyJoin(a: seq<SectionPage>, b: seq<SectionPage>, rank: nat)
    requires Orderly(a) && Orderly(b)
    requires (forall i :: 0 <= i < |a| ==> Rank(a[i].section) < rank) && (forall i :: 0 <= i < |b| ==> Rank(b[i].section) == rank)
    ensures Orderly(a + b) && forall i :: 0 <= i < |a + b| ==> Rank((a + b)[i].section) < rank + 1
  {
    hide Bytes, Rank;
    forall i | 0 <= i < |a + b|
      ensures (a + b)[i] == if i < |a| then a[i] else b[i - |a|]
    {
    }
  }

  /** The pages of a package come section by section, each within its limits; only an empty package has an empty page. */
  lemma PagesAreOrderly(p: Package)
    requires Packable(p)
    ensures if TotalItems(p) == 0 then PagesOf(p) == [SectionPage(ReadStates, [])] else Orderly(PagesOf(p))
  {
    hide Greedy, Sized, Tagged, Orderly, Bytes;
    var a, b := Tagged(ReadStates, Greedy(p.readStates)), Tagged(Groups, Greedy(p.groups));
    var c, d := Tagged(RecentPlainMessages, Greedy(p.messages)), Tagged(SystemNotifications, Greedy(p.notifications));
    TaggedIsOrderly(p.readStates, ReadStates);
    TaggedIsOrderly(p.groups, Groups);
    TaggedIsOrderly(p.messages, RecentPlainMessages);
    TaggedIsOrderly(p.notifications, SystemNotifications);
    OrderlyJoin(a, b, 1);
    OrderlyJoin(a + b, c, 2);
    OrderlyJoin(a + b + c, d, 3);
    PagesRebuildPackage(p, ReadStates);
    EmptyPageIsNothing(ReadStates);
    if TotalItems(p) == 0 {
      EmptyPackageHasNoPages(p);
    }
  }

  lemma EmptyPackageHasNoPages(p: Package)
    requires Packable(p) && TotalItems(p) == 0
    ensures SectionPages(p) == []
  {
    assert p.readStates == [] && p.groups == [] && p.messages == [] && p.notifications == [];
  }

  function Contents(visited: seq<StoredPage>): (pages: seq<SectionPage>)
    ensures |pages| == |visited| && forall i :: 0 <= i < |visited| ==> pages[i] == visited[i].page
  {
    seq(|visited|, i requires 0 <= i < |visited| => visited[i].page)
  }

  /**
   * A whole recovery, from the server's choice to the client's last page: it fails exactly as the
   * selection does; otherwise the client visits between one and a hundred pages, no page twice, and what
   * they hold is each selected section exactly, the counts of the manifest, and the newest messages in
   * increasing event order.
   */
  method Recover(recovery: Token, readStates: seq<Item>, groups: seq<Item>, notifications: seq<Item>, messages: seq<Item>)
    returns (r: Result<seq<StoredPage>, SyncError>)
    requires Decreasing(messages)
    ensures var selected := Select(readStates, groups, notifications, messages);
            match selected
            case Err(e) => r == Err(e)
            case Ok(s) =>
              && r.Ok? && 1 <= |r.value| <= MAX_PAGES
              && (forall i, j :: 0 <= i < j < |r.value| ==> r.value[i].ref != r.value[j].ref)
              && (forall section :: Collect(Contents(r.value), section) == SectionOf(s.package, section))
              && ReturnedItems(Contents(r.value)) == TotalItems(s.package)
              && (TotalItems(s.package) > 0 ==> Orderly(Contents(r.value)))
              && Increasing(Collect(Contents(r.value), RecentPlainMessages))
              && s.package.readStates == readStates && s.package.groups == groups && s.package.notifications == notifications
              && s.choice.count <= |messages| && |s.package.messages| == s.choice.count
              && forall i :: 0 <= i < s.choice.count ==> s.package.messages[i] == messages[s.choice.count - 1 - i]
  {
    hide Select, Collect, ReturnedItems, PagesOf, Orderly;
    var selected := SelectSnapshotPackage(readStates, groups, notifications, messages);
    if selected.Err? {
      return Err(selected.error);
    }
    SelectionKeepsRequired(readStates, groups, notifications, messages);
    PagesRebuildSelection(readStates, groups, notifications, messages, RecentPlainMessages);
    PagesAreOrderly(selected.value.package);
    var pages := PagesOf(selected.value.package);
    var visited := Walk(recovery, pages);
    assert Contents(visited) == pages;
    forall section
      ensures Collect(Contents(visited), section) == SectionOf(selected.value.package, section)
    {
      PagesRebuildSelection(readStates, groups, notifications, messages, section);
    }
    r := Ok(visited);
  }

  lemma SelectionKeepsRequired(readStates: seq<Item>, groups: seq<Item>, notifications: seq<Item>, messages: seq<Item>)
    requires Select(readStates, groups, notifications, messages).Ok?
    ensures var p := Select(readStates, groups, notifications, messages).value.package;
            p.readStates == readStates && p.groups == groups && p.notifications == notifications
  {
    hide Paginate, Choose;
  }
}
