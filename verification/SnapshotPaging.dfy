/**
 * Schema 3 snapshots: greedy paging of one section, and the budgeted choice of the newest complete
 * suffix of messages. An item is an opaque body with the size of its canonical encoding.
 */
module SnapshotPaging {
  import opened Common
  import opened GroupTypes

  const MAX_PAGE_ITEMS := 100
  const MAX_PAGE_BYTES := 1_048_576
  const MAX_PACKAGE_ITEMS := 10_000
  const MAX_PACKAGE_BYTES := 67_108_864
  const MAX_PAGES := 100

  datatype Item = Item(body: Token, eventSeq: nat, size: nat)

  /** Codes 4221 and 4222 of the protocol. */
  datatype SyncError = ItemTooLarge | RequiredStateTooLarge

  type Page = seq<Item>

  function Bytes(items: seq<Item>): nat {
    if items == [] then 0 else Bytes(items[..|items| - 1]) + items[|items| - 1].size
  }

  lemma {:induction false} BytesConcat(a: seq<Item>, b: seq<Item>)
    ensures Bytes(a + b) == Bytes(a) + Bytes(b)
  {
    if b == [] {
      assert a + b == a;
    } else {
      BytesConcat(a, b[..|b| - 1]);
      assert (a + b)[..|a + b| - 1] == a + b[..|b| - 1];
    }
  }

  lemma BytesOfPart(items: seq<Item>, i: nat, j: nat)
    requires i <= j <= |items|
    ensures Bytes(items[i..j]) <= Bytes(items) && Bytes(items[..j]) == Bytes(items[..i]) + Bytes(items[i..j])
    ensures Bytes(items) == Bytes(items[..j]) + Bytes(items[j..])
  {
    hide Bytes;
    BytesConcat(items[..i], items[i..j]);
    BytesConcat(items[..j], items[j..]);
    assert items[..i] + items[i..j] == items[..j];
    assert items[..j] + items[j..] == items;
  }

  lemma BytesOfNext(items: seq<Item>, n: nat)
    requires n < |items|
    ensures Bytes(items[..n + 1]) == Bytes(items[..n]) + items[n].size
  {
    assert items[..n + 1][..n] == items[..n];
  }

  predicate Sized(items: seq<Item>) {
    forall i :: 0 <= i < |items| ==> items[i].size <= MAX_PAGE_BYTES
  }

  predicate FitsPage(page: Page) {
    |page| <= MAX_PAGE_ITEMS && Bytes(page) <= MAX_PAGE_BYTES
  }

  // ------------------------------------------------------------------------------------------
  // One page
  // ------------------------------------------------------------------------------------------

  /** The inner loop of the pager after n items: how many the page takes, or the first oversized one met. */
  function Scan(items: seq<Item>, n: nat): Result<nat, SyncError>
    requires n <= |items|
    decreases |items| - n
  {
    if n == |items| || n == MAX_PAGE_ITEMS then Ok(n)
    else if items[n].size > MAX_PAGE_BYTES then Err(ItemTooLarge)
    else if n > 0 && Bytes(items[..n]) + items[n].size > MAX_PAGE_BYTES then Ok(n)
    else Scan(items, n + 1)
  }

  /** The greedy page is the longest prefix that fits. */
  lemma {:induction false} ScanTakesLongest(items: seq<Item>, n: nat)
    requires Sized(items) && n <= |items| && FitsPage(items[..n])
    ensures Scan(items, n).Ok? && n <= Scan(items, n).value <= |items| && FitsPage(items[..Scan(items, n).value])
    ensures n < |items| && n == 0 ==> Scan(items, n).value >= 1
    ensures forall q :: 0 <= q <= |items| && FitsPage(items[..q]) ==> q <= Scan(items, n).value
    decreases |items| - n
  {
    if n < |items| {
      BytesOfNext(items, n);
    }
    if n == |items| || n == MAX_PAGE_ITEMS {
    } else if n > 0 && Bytes(items[..n]) + items[n].size > MAX_PAGE_BYTES {
      forall q | n < q <= |items|
        ensures !FitsPage(items[..q])
      {
        BytesOfPart(items[..q], 0, n + 1);
        assert items[..q][0..n + 1] == items[..n + 1];
      }
    } else {
      ScanTakesLongest(items, n + 1);
    }
  }

  lemma SizedPart(items: seq<Item>, i: nat, j: nat)
    requires Sized(items) && i <= j <= |items|
    ensures Sized(items[i..j])
  {
  }

  function PageLength(items: seq<Item>): (p: nat)
    requires Sized(items) && items != []
    ensures 1 <= p <= |items| && FitsPage(items[..p])
    ensures forall q :: 0 <= q <= |items| && FitsPage(items[..q]) ==> q <= p
  {
    ScanTakesLongest(items, 0);
    Scan(items, 0).value
  }

  // ------------------------------------------------------------------------------------------
  // Greedy paging of a section
  // ------------------------------------------------------------------------------------------

  function Greedy(items: seq<Item>): (pages: seq<Page>)
    requires Sized(items)
  {
    if items == [] then []
    else
      var p := PageLength(items);
      SizedPart(items, p, |items|);
      [items[..p]] + Greedy(items[p..])
  }

  function PageCount(items: seq<Item>): nat
    requires Sized(items)
  {
    |Greedy(items)|
  }

  function Concat(pages: seq<Page>): seq<Item> {
    if pages == [] then [] else pages[0] + Concat(pages[1..])
  }

  /** Any way to cut a section into non-empty pages within the page limits. */
  predicate IsSplit(pages: seq<Page>, items: seq<Item>) {
    Concat(pages) == items && forall i :: 0 <= i < |pages| ==> pages[i] != [] && FitsPage(pages[i])
  }

  lemma {:induction false} GreedyIsSplit(items: seq<Item>)
    requires Sized(items)
    ensures IsSplit(Greedy(items), items)
  {
    if items != [] {
      var p := PageLength(items);
      SizedPart(items, p, |items|);
      GreedyIsSplit(items[p..]);
      assert items[..p] + items[p..] == items;
    }
  }

  lemma PartOfPrefix(items: seq<Item>, d: nat, p: nat)
    requires d <= p <= |items|
    ensures items[d..][..p - d] == items[..p][d..p]
  {
  }

  lemma SuffixOfSuffix(items: seq<Item>, p: nat, k: nat)
    requires p + k <= |items|
    ensures items[p..][k..] == items[p + k..]
  {
  }

  /** Dropping items from the front never costs a page. */
  lemma {:induction false} SuffixNeedsNoMore(items: seq<Item>, d: nat)
    requires Sized(items) && d <= |items|
    ensures Sized(items[d..]) && PageCount(items[d..]) <= PageCount(items)
    decreases |items|
  {
    hide Bytes, Scan;
    SizedPart(items, d, |items|);
    if d == |items| {
      assert items[d..] == [];
    } else {
      var p := PageLength(items);
      SizedPart(items, p, |items|);
      if d >= p {
        SuffixNeedsNoMore(items[p..], d - p);
        SuffixOfSuffix(items, p, d - p);
      } else {
        var rest := items[d..];
        var p' := PageLength(rest);
        PartOfPrefix(items, d, p);
        BytesOfPart(items[..p], d, p);
        assert FitsPage(rest[..p - d]);
        SizedPart(rest, p', |rest|);
        SuffixNeedsNoMore(items[p..], d + p' - p);
        SuffixOfSuffix(items, p, d + p' - p);
        SuffixOfSuffix(items, d, p');
      }
    }
  }

  /** Greedy paging uses the fewest pages of all splits. */
  lemma {:induction false} GreedyIsOptimal(items: seq<Item>, pages: seq<Page>)
    requires Sized(items) && IsSplit(pages, items)
    ensures PageCount(items) <= |pages|
    decreases |pages|
  {
    if items != [] {
      var q := |pages[0]|;
      assert items[..q] == pages[0] && items[q..] == Concat(pages[1..]);
      SizedPart(items, q, |items|);
      GreedyIsOptimal(items[q..], pages[1..]);
      var p := PageLength(items);
      assert q <= p;
      SizedPart(items, p, |items|);
      SuffixNeedsNoMore(items[q..], p - q);
      assert items[q..][p - q..] == items[p..];
    }
  }

  /** One older message in front costs at most one page. */
  lemma PrependingCostsAtMostOne(item: Item, items: seq<Item>)
    requires Sized([item] + items)
    ensures Sized(items) && PageCount(items) <= PageCount([item] + items) <= PageCount(items) + 1
  {
    var longer := [item] + items;
    SuffixNeedsNoMore(longer, 1);
    assert longer[1..] == items;
    GreedyIsSplit(items);
    var pages := [[item]] + Greedy(items);
    assert pages[1..] == Greedy(items);
    assert Bytes([item]) == item.size by {
      assert [item][..0] == [];
    }
    assert longer[0] == item;
    GreedyIsOptimal(longer, pages);
  }

  // ------------------------------------------------------------------------------------------
  // The pager, with its page limit
  // ------------------------------------------------------------------------------------------

  /** The outer loop over one section when `done` pages precede it: the hundred-and-first page raises. */
  function PaginateFrom(items: seq<Item>, done: nat): Result<seq<Page>, SyncError> {
    if items == [] then Ok([])
    else
      match Scan(items, 0)
      case Err(e) => Err(e)
      case Ok(p) =>
        if p == 0 || p > |items| || done + 1 > MAX_PAGES then Err(RequiredStateTooLarge)
        else
          match PaginateFrom(items[p..], done + 1)
          case Err(e) => Err(e)
          case Ok(rest) => Ok([items[..p]] + rest)
  }

  lemma {:induction false} PaginateIsGreedy(items: seq<Item>, done: nat)
    requires Sized(items)
    ensures PaginateFrom(items, done) ==
            if items != [] && done + PageCount(items) > MAX_PAGES then Err(RequiredStateTooLarge) else Ok(Greedy(items))
  {
    if items != [] {
      ScanTakesLongest(items, 0);
      var p := PageLength(items);
      SizedPart(items, p, |items|);
      PaginateIsGreedy(items[p..], done + 1);
    }
  }

  /** `_paginate_nonempty_sections`: the sections in their order, empty ones without a page. */
  function Paginate(sections: seq<seq<Item>>, done: nat): Result<seq<Page>, SyncError>
    decreases |sections|
  {
    if sections == [] then Ok([])
    else
      match PaginateFrom(sections[0], done)
      case Err(e) => Err(e)
      case Ok(first) =>
        match Paginate(sections[1..], done + |first|)
        case Err(e) => Err(e)
        case Ok(rest) => Ok(first + rest)
  }

  predicate AllSized(sections: seq<seq<Item>>) {
    forall i :: 0 <= i < |sections| ==> Sized(sections[i])
  }

  function TotalPages(sections: seq<seq<Item>>): nat
    requires AllSized(sections)
  {
    if sections == [] then 0 else PageCount(sections[0]) + TotalPages(sections[1..])
  }

  function GreedyPages(sections: seq<seq<Item>>): seq<Page>
    requires AllSized(sections)
  {
    if sections == [] then [] else Greedy(sections[0]) + GreedyPages(sections[1..])
  }

  lemma {:induction false} GreedyPagesAreCounted(sections: seq<seq<Item>>)
    requires AllSized(sections)
    ensures |GreedyPages(sections)| == TotalPages(sections)
  {
    if sections != [] {
      GreedyPagesAreCounted(sections[1..]);
    }
  }

  /** Paging a package succeeds exactly when its sections need at most a hundred pages, and then it is greedy. */
  lemma {:induction false} PaginateIsGreedyPages(sections: seq<seq<Item>>, done: nat)
    requires AllSized(sections) && done <= MAX_PAGES
    ensures Paginate(sections, done) ==
            if done + TotalPages(sections) > MAX_PAGES then Err(RequiredStateTooLarge) else Ok(GreedyPages(sections))
    decreases |sections|
  {
    if sections != [] {
      PaginateIsGreedy(sections[0], done);
      if done + PageCount(sections[0]) <= MAX_PAGES {
        PaginateIsGreedyPages(sections[1..], done + PageCount(sections[0]));
      }
    }
  }

  // ------------------------------------------------------------------------------------------
  // Choosing the messages
  // ------------------------------------------------------------------------------------------

  datatype Truncation = Complete | MaxItems | MaxBytes | MaxPagesReached

  datatype Budget = Budget(items: nat, bytes: nat, pages: nat)

  function Reverse(items: seq<Item>): (r: seq<Item>)
    ensures |r| == |items| && forall i :: 0 <= i < |items| ==> r[i] == items[|items| - 1 - i]
  {
    if items == [] then [] else [items[|items| - 1]] + Reverse(items[..|items| - 1])
  }

  lemma SizedReverse(items: seq<Item>)
    ensures Sized(items) <==> Sized(Reverse(items))
  {
    forall i | 0 <= i < |items|
      ensures items[i] == Reverse(items)[|items| - 1 - i]
    {
    }
  }

  datatype Choice = Choice(count: nat, truncation: Truncation)

  /** The loop over the messages, newest first, once n of them are taken. */
  function Choose(messages: seq<Item>, n: nat, left: Budget): Result<Choice, SyncError>
    requires n <= |messages|
    decreases |messages| - n
  {
    if n == |messages| then Ok(Choice(n, Complete))
    else if messages[n].size > MAX_PAGE_BYTES then Err(ItemTooLarge)
    else if n >= left.items then Ok(Choice(n, MaxItems))
    else if Bytes(messages[..n]) + messages[n].size > left.bytes then Ok(Choice(n, MaxBytes))
    else
      match Paginate([Reverse(messages[..n + 1])], 0)
      case Err(e) => Err(e)
      case Ok(trial) => if |trial| > left.pages then Ok(Choice(n, MaxPagesReached)) else Choose(messages, n + 1, left)
  }

  /** The n newest messages meet every budget. */
  predicate Affordable(messages: seq<Item>, n: nat, left: Budget)
    requires n <= |messages|
  {
    && Sized(Reverse(messages[..n]))
    && n <= left.items && Bytes(messages[..n]) <= left.bytes && PageCount(Reverse(messages[..n])) <= left.pages
  }

  lemma NothingIsAffordable(messages: seq<Item>, left: Budget)
    ensures Affordable(messages, 0, left)
  {
    assert messages[..0] == [];
  }

  /** Whatever is affordable stays so with fewer, newer messages. */
  lemma {:induction false} AffordableShrinks(messages: seq<Item>, m: nat, n: nat, left: Budget)
    requires m <= n <= |messages| && Affordable(messages, n, left)
    ensures Affordable(messages, m, left)
    decreases n
  {
    if m < n {
      ReverseOfNext(messages, n - 1);
      SizedReverse(messages[..n]);
      PrependingCostsAtMostOne(messages[n - 1], Reverse(messages[..n - 1]));
      BytesOfNext(messages, n - 1);
      AffordableShrinks(messages, m, n - 1, left);
    }
  }

  lemma ReverseOfNext(messages: seq<Item>, n: nat)
    requires n < |messages|
    ensures Reverse(messages[..n + 1]) == [messages[n]] + Reverse(messages[..n])
  {
    assert messages[..n + 1][..n] == messages[..n];
  }

  /** What stops the loop after n messages: nothing left, or a budget that the next one would break. */
  predicate StopsAt(messages: seq<Item>, n: nat, left: Budget, why: Truncation)
    requires n <= |messages|
  {
    match why
    case Complete => n == |messages|
    case MaxItems => n < |messages| && n >= left.items
    case MaxBytes => n < |messages| && n < left.items && Bytes(messages[..n + 1]) > left.bytes
    case MaxPagesReached =>
      && n < |messages| && n < left.items && Bytes(messages[..n + 1]) <= left.bytes
      && Sized(Reverse(messages[..n + 1])) && PageCount(Reverse(messages[..n + 1])) > left.pages
  }

  /** The message at which the trial itself would need a hundred and one pages. */
  predicate TrialRaises(messages: seq<Item>, n: nat, left: Budget) {
    && n < |messages| && n < left.items && Bytes(messages[..n + 1]) <= left.bytes
    && Sized(Reverse(messages[..n + 1])) && PageCount(Reverse(messages[..n + 1])) > MAX_PAGES
  }

  /**
   * The loop either stops after the longest affordable run of newest messages, or raises: at an
   * oversized message right behind that run, or, when required state left all hundred pages, at the
   * message that would need one more.
   */
  lemma {:induction false} ChoiceIsLongest(messages: seq<Item>, n: nat, left: Budget)
    requires n <= |messages| && left.pages <= MAX_PAGES && Affordable(messages, n, left)
    ensures Choose(messages, n, left).Ok? ==>
              var c := Choose(messages, n, left).value;
              && n <= c.count <= |messages| && Affordable(messages, c.count, left)
              && StopsAt(messages, c.count, left, c.truncation)
              && forall m :: 0 <= m <= |messages| ==> (Affordable(messages, m, left) <==> m <= c.count)
    ensures Choose(messages, n, left) == Err(ItemTooLarge) ==>
              exists m :: n <= m < |messages| && Affordable(messages, m, left) && messages[m].size > MAX_PAGE_BYTES
    ensures Choose(messages, n, left) == Err(RequiredStateTooLarge) ==>
              left.pages == MAX_PAGES && exists m :: n <= m < |messages| && Affordable(messages, m, left) && TrialRaises(messages, m, left)
    decreases |messages| - n
  {
    hide Scan, Bytes;
    forall m | 0 <= m <= n
      ensures Affordable(messages, m, left)
    {
      AffordableShrinks(messages, m, n, left);
    }
    if n < |messages| {
      BytesOfNext(messages, n);
      ReverseOfNext(messages, n);
      forall m | n < m <= |messages| && Affordable(messages, m, left)
        ensures Affordable(messages, n + 1, left)
      {
        AffordableShrinks(messages, n + 1, m, left);
      }
      if messages[n].size <= MAX_PAGE_BYTES && n < left.items && Bytes(messages[..n + 1]) <= left.bytes {
        var trial := Reverse(messages[..n + 1]);
        assert Sized(trial);
        PrependingCostsAtMostOne(messages[n], Reverse(messages[..n]));
        PaginateIsGreedy(trial, 0);
        TrialPages(trial);
        if PageCount(trial) <= left.pages {
          ChoiceIsLongest(messages, n + 1, left);
        }
      }
    }
  }

  /** The trial count of one section. */
  lemma TrialPages(trial: seq<Item>)
    requires Sized(trial) && trial != []
    ensures Paginate([trial], 0) == if PageCount(trial) > MAX_PAGES then Err(RequiredStateTooLarge) else Ok(Greedy(trial))
  {
    PaginateIsGreedy(trial, 0);
    assert [trial][1..] == [];
    if PageCount(trial) <= MAX_PAGES {
      assert Paginate([trial][1..], PageCount(trial)) == Ok([]);
      assert Greedy(trial) + [] == Greedy(trial);
    }
  }

  /** Every run of newest messages shorter than the first unaffordable one is affordable. */
  predicate LongestAffordable(messages: seq<Item>, c: nat, left: Budget) {
    c <= |messages| && Affordable(messages, c, left) && (c < |messages| ==> !Affordable(messages, c + 1, left))
  }

  /** The loop's outcome, decided by the longest affordable run alone. */
  lemma {:induction false} ChoiceIsDecided(messages: seq<Item>, n: nat, c: nat, left: Budget)
    requires n <= c <= |messages| && left.pages <= MAX_PAGES && LongestAffordable(messages, c, left)
    ensures if c < |messages| && messages[c].size > MAX_PAGE_BYTES then Choose(messages, n, left) == Err(ItemTooLarge)
            else if left.pages == MAX_PAGES && TrialRaises(messages, c, left) then Choose(messages, n, left) == Err(RequiredStateTooLarge)
            else Choose(messages, n, left).Ok? && Choose(messages, n, left).value.count == c
    decreases c - n
  {
    hide Scan, Bytes, Greedy;
    AffordableShrinks(messages, n, c, left);
    if n < |messages| {
      BytesOfNext(messages, n);
      ReverseOfNext(messages, n);
      var trial := Reverse(messages[..n + 1]);
      assert messages[n].size <= MAX_PAGE_BYTES ==> Sized(trial);
      if messages[n].size <= MAX_PAGE_BYTES {
        PrependingCostsAtMostOne(messages[n], Reverse(messages[..n]));
        TrialPages(trial);
        assert Greedy(trial) == Greedy(trial) && |Greedy(trial)| == PageCount(trial);
      }
      if n < c {
        AffordableShrinks(messages, n + 1, c, left);
        assert trial[0] == messages[n];
        ChoiceIsDecided(messages, n + 1, c, left);
      }
    }
  }

  // ------------------------------------------------------------------------------------------
  // The whole selection
  // ------------------------------------------------------------------------------------------

  datatype Package = Package(readStates: seq<Item>, groups: seq<Item>, messages: seq<Item>, notifications: seq<Item>)
  {
    /** SECTION_ORDER. */
    function Sections(): seq<seq<Item>> {
      [readStates, groups, messages, notifications]
    }
  }

  datatype Selection = Selection(package: Package, choice: Choice, required: Budget)

  /** `select_snapshot_package`; messages come newest first. */
  function Select(readStates: seq<Item>, groups: seq<Item>, notifications: seq<Item>, messages: seq<Item>): Result<Selection, SyncError> {
    var required := [readStates, groups, notifications];
    var items := |readStates| + |groups| + |notifications|;
    var bytes := Bytes(readStates) + Bytes(groups) + Bytes(notifications);
    if !AllSized(required) then Err(ItemTooLarge)
    else if items > MAX_PACKAGE_ITEMS || bytes > MAX_PACKAGE_BYTES then Err(RequiredStateTooLarge)
    else
      match Paginate(required, 0)
      case Err(e) => Err(e)
      case Ok(pages) =>
        if |pages| > MAX_PAGES then Err(RequiredStateTooLarge)
        else
          match Choose(messages, 0, Budget(MAX_PACKAGE_ITEMS - items, MAX_PACKAGE_BYTES - bytes, MAX_PAGES - |pages|))
          case Err(e) => Err(e)
          case Ok(choice) =>
            if choice.count > |messages| then Err(RequiredStateTooLarge)
            else
              Ok(Selection(Package(readStates, groups, Reverse(messages[..choice.count]), notifications), choice,
                           Budget(items, bytes, |pages|)))
  }

  function Left(required: Budget): Budget
    requires required.items <= MAX_PACKAGE_ITEMS && required.bytes <= MAX_PACKAGE_BYTES && required.pages <= MAX_PAGES
  {
    Budget(MAX_PACKAGE_ITEMS - required.items, MAX_PACKAGE_BYTES - required.bytes, MAX_PAGES - required.pages)
  }

  /** What required state takes of each budget. */
  function Used(readStates: seq<Item>, groups: seq<Item>, notifications: seq<Item>): Budget
    requires AllSized([readStates, groups, notifications])
  {
    Budget(|readStates| + |groups| + |notifications|, Bytes(readStates) + Bytes(groups) + Bytes(notifications),
           TotalPages([readStates, groups, notifications]))
  }

  predicate Fits(used: Budget) {
    used.items <= MAX_PACKAGE_ITEMS && used.bytes <= MAX_PACKAGE_BYTES && used.pages <= MAX_PAGES
  }

  lemma SelectionFollows(readStates: seq<Item>, groups: seq<Item>, notifications: seq<Item>, messages: seq<Item>, c: nat)
    requires AllSized([readStates, groups, notifications]) && Fits(Used(readStates, groups, notifications))
    requires LongestAffordable(messages, c, Left(Used(readStates, groups, notifications)))
    ensures var r, used := Select(readStates, groups, notifications, messages), Used(readStates, groups, notifications);
            if c < |messages| && messages[c].size > MAX_PAGE_BYTES then r == Err(ItemTooLarge)
            else if used.pages == 0 && TrialRaises(messages, c, Left(used)) then r == Err(RequiredStateTooLarge)
            else
              && r.Ok? && r.value.required == used
              && r.value.package == Package(readStates, groups, Reverse(messages[..c]), notifications)
              && StopsAt(messages, c, Left(used), r.value.choice.truncation)
  {
    hide Scan, Bytes, Greedy, TotalPages, Choose, Affordable;
    var used := Used(readStates, groups, notifications);
    PaginateIsGreedyPages([readStates, groups, notifications], 0);
    GreedyPagesAreCounted([readStates, groups, notifications]);
    hide Paginate, GreedyPages;
    ChoiceIsDecided(messages, 0, c, Left(used));
    NothingIsAffordable(messages, Left(used));
    ChoiceIsLongest(messages, 0, Left(used));
  }

  lemma {:induction false} LongestAffordableExists(messages: seq<Item>, n: nat, left: Budget) returns (c: nat)
    requires n <= |messages| && Affordable(messages, n, left)
    ensures n <= c && LongestAffordable(messages, c, left)
    decreases |messages| - n
  {
    if n < |messages| && Affordable(messages, n + 1, left) {
      c := LongestAffordableExists(messages, n + 1, left);
    } else {
      c := n;
    }
  }

  /** Required state beyond a budget is refused as such. */
  lemma RequiredStateIsRefused(readStates: seq<Item>, groups: seq<Item>, notifications: seq<Item>, messages: seq<Item>)
    requires AllSized([readStates, groups, notifications])
    requires !Fits(Used(readStates, groups, notifications))
    ensures Select(readStates, groups, notifications, messages) == Err(RequiredStateTooLarge)
  {
    hide Scan, Bytes, Greedy, TotalPages, Choose;
    PaginateIsGreedyPages([readStates, groups, notifications], 0);
  }

  lemma OversizedStateIsRefused(readStates: seq<Item>, groups: seq<Item>, notifications: seq<Item>, messages: seq<Item>)
    requires !AllSized([readStates, groups, notifications])
    ensures Select(readStates, groups, notifications, messages) == Err(ItemTooLarge)
  {
  }

  /**
   * Every input is decided. Required state with an oversized item, or beyond a budget, is refused.
   * Otherwise c is the longest newest suffix that meets all three remaining budgets, and the selection
   * is that suffix, oldest first; it raises only at an oversized message right behind the suffix or,
   * when required state occupies no page at all, where a hundred-and-first would be needed.
   */
  lemma SelectionIsLongestSuffix(readStates: seq<Item>, groups: seq<Item>, notifications: seq<Item>, messages: seq<Item>) returns (c: nat)
    ensures var r := Select(readStates, groups, notifications, messages);
            if !AllSized([readStates, groups, notifications]) then r == Err(ItemTooLarge)
            else
              var used := Used(readStates, groups, notifications);
              if !Fits(used) then r == Err(RequiredStateTooLarge)
              else
                && LongestAffordable(messages, c, Left(used))
                && if c < |messages| && messages[c].size > MAX_PAGE_BYTES then r == Err(ItemTooLarge)
                   else if used.pages == 0 && TrialRaises(messages, c, Left(used)) then r == Err(RequiredStateTooLarge)
                   else
                     && r.Ok? && r.value.required == used
                     && r.value.package == Package(readStates, groups, Reverse(messages[..c]), notifications)
                     && StopsAt(messages, c, Left(used), r.value.choice.truncation)
  {
    hide Select, LongestAffordable, AllSized, StopsAt, TrialRaises;
    c := 0;
    if !AllSized([readStates, groups, notifications]) {
      OversizedStateIsRefused(readStates, groups, notifications, messages);
    } else if !Fits(Used(readStates, groups, notifications)) {
      RequiredStateIsRefused(readStates, groups, notifications, messages);
    } else {
      var left := Left(Used(readStates, groups, notifications));
      NothingIsAffordable(messages, left);
      c := LongestAffordableExists(messages, 0, left);
      LongestWithin(messages, c, left);
      SelectionFollows(readStates, groups, notifications, messages, c);
    }
  }

  lemma LongestWithin(messages: seq<Item>, c: nat, left: Budget)
    requires LongestAffordable(messages, c, left)
    ensures c <= |messages|
  {
  }

  lemma PagesOfSections(p: Package)
    requires AllSized([p.readStates, p.groups, p.notifications]) && Sized(p.messages)
    ensures AllSized(p.Sections())
    ensures TotalPages(p.Sections()) == TotalPages([p.readStates, p.groups, p.notifications]) + PageCount(p.messages)
  {
    hide Greedy, Scan;
    var required := [p.readStates, p.groups, p.notifications];
    assert Sized(required[0]) && Sized(required[1]) && Sized(required[2]);
    var all := p.Sections();
    assert all[1..] == [p.groups, p.messages, p.notifications];
    assert all[1..][1..] == [p.messages, p.notifications];
    assert all[1..][1..][1..] == [p.notifications];
    assert required[1..] == [p.groups, p.notifications];
    assert required[1..][1..] == [p.notifications];
    assert TotalPages(all) == PageCount(p.readStates) + TotalPages([p.groups, p.messages, p.notifications]);
    assert TotalPages([p.groups, p.messages, p.notifications]) == PageCount(p.groups) + TotalPages([p.messages, p.notifications]);
    assert TotalPages([p.messages, p.notifications]) == PageCount(p.messages) + TotalPages([p.notifications]);
    assert TotalPages(required) == PageCount(p.readStates) + TotalPages([p.groups, p.notifications]);
    assert TotalPages([p.groups, p.notifications]) == PageCount(p.groups) + TotalPages([p.notifications]);
  }

  /** A selected package always pages without error, within its hundred pages, into its own contents. */
  lemma SelectedPackagePages(readStates: seq<Item>, groups: seq<Item>, notifications: seq<Item>, messages: seq<Item>)
    requires Select(readStates, groups, notifications, messages).Ok?
    ensures var p := Select(readStates, groups, notifications, messages).value.package;
            && AllSized(p.Sections()) && TotalPages(p.Sections()) <= MAX_PAGES
            && Paginate(p.Sections(), 0) == Ok(GreedyPages(p.Sections()))
            && |readStates| + |groups| + |p.messages| + |notifications| <= MAX_PACKAGE_ITEMS
            && Bytes(readStates) + Bytes(groups) + Bytes(p.messages) + Bytes(notifications) <= MAX_PACKAGE_BYTES
  {
    hide Scan, Bytes, Greedy, TotalPages, Choose;
    var required := [readStates, groups, notifications];
    var s := Select(readStates, groups, notifications, messages).value;
    var used := s.required;
    PaginateIsGreedyPages(required, 0);
    GreedyPagesAreCounted(required);
    NothingIsAffordable(messages, Left(used));
    ChoiceIsLongest(messages, 0, Left(used));
    var p := s.package;
    assert required[0] == readStates && required[1] == groups && required[2] == notifications;
    BytesOfReverse(messages[..s.choice.count]);
    PagesOfSections(p);
    PaginateIsGreedyPages(p.Sections(), 0);
  }

  lemma {:induction false} BytesOfReverse(items: seq<Item>)
    ensures Bytes(Reverse(items)) == Bytes(items)
  {
    if items != [] {
      BytesOfReverse(items[..|items| - 1]);
      BytesConcat([items[|items| - 1]], Reverse(items[..|items| - 1]));
      assert [items[|items| - 1]][..0] == [];
      assert Bytes([items[|items| - 1]]) == items[|items| - 1].size;
    }
  }

  // ------------------------------------------------------------------------------------------
  // The trial that raises
  // ------------------------------------------------------------------------------------------

  const HALF_PAGE_AND_MORE := 600_000

  /** n messages of which no two share a page. */
  function Bulky(n: nat): (items: seq<Item>)
    ensures |items| == n && forall i :: 0 <= i < n ==> items[i].size == HALF_PAGE_AND_MORE
  {
    seq(n, i requires 0 <= i < n => Item(Token(""), i, HALF_PAGE_AND_MORE))
  }

  predicate AllBulky(items: seq<Item>) {
    forall i :: 0 <= i < |items| ==> items[i].size == HALF_PAGE_AND_MORE
  }

  lemma {:induction false} BulkyBytes(items: seq<Item>)
    requires AllBulky(items)
    ensures Bytes(items) == HALF_PAGE_AND_MORE * |items|
  {
    if items != [] {
      BulkyBytes(items[..|items| - 1]);
    }
  }

  lemma {:induction false} BulkyPages(items: seq<Item>)
    requires AllBulky(items)
    ensures Sized(items) && PageCount(items) == |items|
  {
    if items != [] {
      var p := PageLength(items);
      BulkyBytes(items[..p]);
      assert p == 1;
      BulkyPages(items[1..]);
    }
  }

  const NO_BUDGET_USED := Budget(0, 0, 0)

  lemma NothingRequired()
    ensures AllSized([[], [], []]) && Used([], [], []) == NO_BUDGET_USED
  {
    var none: seq<Item> := [];
    assert TotalPages([none]) == 0 by {
      assert [none][1..] == [];
    }
    assert TotalPages([none, none]) == 0 by {
      assert [none, none][1..] == [none];
    }
    assert [none, none, none][1..] == [none, none];
  }

  lemma BulkyTrialRaises()
    ensures TrialRaises(Bulky(101), 100, Left(NO_BUDGET_USED))
  {
    hide Bytes, Greedy, Reverse;
    BulkyPages(Reverse(Bulky(101)[..101]));
    BulkyBytes(Bulky(101)[..101]);
  }

  /** With no required state, a hundred and one bulky messages raise where a hundred are delivered. */
  lemma TrialCanRaise()
    ensures Select([], [], [], Bulky(100)).Ok?
    ensures Select([], [], [], Bulky(101)) == Err(RequiredStateTooLarge)
  {
    hide Choose, Scan, Bytes, Bulky, LongestAffordable, Used, Select, Sized, PageCount;
    NothingRequired();
    BulkyTrialRaises();
    BulkyIsAffordable(100, 100);
    BulkyIsAffordable(101, 100);
    SelectionFollows([], [], [], Bulky(100), 100);
    SelectionFollows([], [], [], Bulky(101), 100);
  }

  lemma BulkyIsAffordable(n: nat, c: nat)
    requires c <= n <= 101 && c <= 100
    ensures Affordable(Bulky(n), c, Left(NO_BUDGET_USED))
    ensures c == 100 ==> LongestAffordable(Bulky(n), c, Left(NO_BUDGET_USED))
  {
    BulkyBytes(Bulky(n)[..c]);
    BulkyPages(Reverse(Bulky(n)[..c]));
    if c < n {
      BulkyPages(Reverse(Bulky(n)[..c + 1]));
    }
  }

  // ------------------------------------------------------------------------------------------
  // The loops themselves
  // ------------------------------------------------------------------------------------------

  /** `encoded_size` raises for an item that no page can hold. */
  method EncodedSize(item: Item) returns (r: Result<nat, SyncError>)
    ensures r == if item.size > MAX_PAGE_BYTES then Err(ItemTooLarge) else Ok(item.size)
  {
    if item.size > MAX_PAGE_BYTES {
      return Err(ItemTooLarge);
    }
    r := Ok(item.size);
  }

  lemma {:induction false} ScanWithinPage(items: seq<Item>, n: nat)
    requires n <= |items| && n <= MAX_PAGE_ITEMS && Scan(items, n).Ok?
    ensures n <= Scan(items, n).value <= |items| && (n < |items| && n == 0 ==> Scan(items, n).value >= 1)
    decreases |items| - n
  {
    if n < |items| && n < MAX_PAGE_ITEMS && !(n > 0 && Bytes(items[..n]) + items[n].size > MAX_PAGE_BYTES) {
      ScanWithinPage(items, n + 1);
    }
  }

  lemma EmptyBytes()
    ensures Bytes([]) == 0
  {
  }

  /** The pages already made, in front of what the rest gives. */
  function Prefixed(pages: seq<Page>, rest: Result<seq<Page>, SyncError>): Result<seq<Page>, SyncError> {
    match rest
    case Ok(more) => Ok(pages + more)
    case Err(e) => Err(e)
  }

  lemma PrefixedTwice(a: seq<Page>, b: seq<Page>, rest: Result<seq<Page>, SyncError>)
    ensures Prefixed(a, Prefixed(b, rest)) == Prefixed(a + b, rest) && Prefixed([], rest) == rest
  {
    if rest.Ok? {
      assert a + (b + rest.value) == (a + b) + rest.value && [] + rest.value == rest.value;
    }
  }

  /** The inner loop: fill one batch from `start` on. */
  method FillBatch(items: seq<Item>, start: nat) returns (r: Result<Page, SyncError>)
    requires start < |items|
    ensures match Scan(items[start..], 0)
            case Ok(p) => p <= |items| - start && r == Ok(items[start..start + p])
            case Err(e) => r == Err(e)
  {
    hide Bytes;
    var rest := items[start..];
    ghost var whole := Scan(rest, 0);
    var batch: Page := [];
    var encoded, index := 0, start;
    assert Bytes([]) == 0 by {
      EmptyBytes();
    }
    while index < |items| && |batch| < MAX_PAGE_ITEMS
      invariant start <= index <= |items| && |batch| == index - start <= MAX_PAGE_ITEMS
      invariant batch == rest[..index - start] && encoded == Bytes(batch)
      invariant whole == Scan(rest, index - start)
    {
      var size := EncodedSize(items[index]);
      if size.Err? {
        return Err(size.error);
      }
      if batch != [] && encoded + size.value > MAX_PAGE_BYTES {
        break;
      }
      BytesOfNext(rest, index - start);
      batch := batch + [items[index]];
      encoded := encoded + size.value;
      index := index + 1;
    }
    assert rest[..index - start] == items[start..index];
    r := Ok(batch);
  }

  /** The outer loop: close the page, and count it against the limit. */
  method PaginateSection(items: seq<Item>, done: nat) returns (r: Result<seq<Page>, SyncError>)
    ensures r == PaginateFrom(items, done)
  {
    hide Scan;
    var pages: seq<Page> := [];
    var index := 0;
    assert items[0..] == items;
    PrefixedTwice([], [], PaginateFrom(items, done));
    while index < |items|
      invariant 0 <= index <= |items|
      invariant PaginateFrom(items, done) == Prefixed(pages, PaginateFrom(items[index..], done + |pages|))
      decreases |items| - index
    {
      var batch := FillBatch(items, index);
      if batch.Err? {
        return Err(batch.error);
      }
      ghost var rest := items[index..];
      assert rest[..|batch.value|] == batch.value && rest[|batch.value|..] == items[index + |batch.value|..];
      PageIsNotEmpty(rest);
      PrefixedTwice(pages, [batch.value], PaginateFrom(items[index + |batch.value|..], done + |pages| + 1));
      pages := pages + [batch.value];
      index := index + |batch.value|;
      if done + |pages| > MAX_PAGES {
        return Err(RequiredStateTooLarge);
      }
    }
    assert pages + [] == pages;
    r := Ok(pages);
  }

  lemma PageIsNotEmpty(items: seq<Item>)
    requires items != [] && Scan(items, 0).Ok?
    ensures 1 <= Scan(items, 0).value <= |items|
  {
    ScanWithinPage(items, 0);
  }

  method PaginateSections(sections: seq<seq<Item>>) returns (r: Result<seq<Page>, SyncError>)
    ensures r == Paginate(sections, 0)
  {
    var pages: seq<Page> := [];
    var n := 0;
    assert sections[0..] == sections;
    PrefixedTwice([], [], Paginate(sections, 0));
    while n < |sections|
      invariant 0 <= n <= |sections|
      invariant Paginate(sections, 0) == Prefixed(pages, Paginate(sections[n..], |pages|))
    {
      var section := PaginateSection(sections[n], |pages|);
      assert sections[n..][0] == sections[n] && sections[n..][1..] == sections[n + 1..];
      if section.Err? {
        return Err(section.error);
      }
      PrefixedTwice(pages, section.value, Paginate(sections[n + 1..], |pages| + |section.value|));
      pages := pages + section.value;
      n := n + 1;
    }
    assert pages + [] == pages;
    r := Ok(pages);
  }

  /** The loop over the messages, newest first, collecting them and what they cost. */
  method SelectMessages(messages: seq<Item>, left: Budget) returns (r: Result<Choice, SyncError>, selectedNewest: seq<Item>)
    ensures r == Choose(messages, 0, left)
    ensures r.Ok? ==> r.value.count <= |messages| && selectedNewest == messages[..r.value.count]
  {
    selectedNewest := [];
    var messageBytes := 0;
    var n := 0;
    while n < |messages|
      invariant 0 <= n <= |messages| && selectedNewest == messages[..n] && messageBytes == Bytes(selectedNewest)
      invariant Choose(messages, 0, left) == Choose(messages, n, left)
    {
      var size := EncodedSize(messages[n]);
      if size.Err? {
        return Err(size.error), selectedNewest;
      }
      if |selectedNewest| >= left.items {
        return Ok(Choice(n, MaxItems)), selectedNewest;
      }
      if messageBytes + size.value > left.bytes {
        return Ok(Choice(n, MaxBytes)), selectedNewest;
      }
      assert selectedNewest + [messages[n]] == messages[..n + 1];
      var trial := PaginateSections([Reverse(selectedNewest + [messages[n]])]);
      if trial.Err? {
        return Err(trial.error), selectedNewest;
      }
      if |trial.value| > left.pages {
        return Ok(Choice(n, MaxPagesReached)), selectedNewest;
      }
      BytesOfNext(messages, n);
      selectedNewest := selectedNewest + [messages[n]];
      messageBytes := messageBytes + size.value;
      n := n + 1;
    }
    r := Ok(Choice(n, Complete));
  }

  /** Summing up a required section, raising at the first oversized item. */
  method SizeSection(items: seq<Item>) returns (r: Result<nat, SyncError>)
    ensures r == if Sized(items) then Ok(Bytes(items)) else Err(ItemTooLarge)
  {
    var total := 0;
    var n := 0;
    while n < |items|
      invariant 0 <= n <= |items| && total == Bytes(items[..n]) && Sized(items[..n])
    {
      var size := EncodedSize(items[n]);
      if size.Err? {
        return Err(ItemTooLarge);
      }
      BytesOfNext(items, n);
      total := total + size.value;
      n := n + 1;
    }
    assert items[..n] == items;
    r := Ok(total);
  }

  method SelectSnapshotPackage(readStates: seq<Item>, groups: seq<Item>, notifications: seq<Item>, messages: seq<Item>)
    returns (r: Result<Selection, SyncError>)
    ensures r == Select(readStates, groups, notifications, messages)
  {
    hide Choose, Paginate, Bytes;
    var required := [readStates, groups, notifications];
    assert required[0] == readStates && required[1] == groups && required[2] == notifications;
    var first := SizeSection(readStates);
    if first.Err? {
      return Err(first.error);
    }
    var second := SizeSection(groups);
    if second.Err? {
      return Err(second.error);
    }
    var third := SizeSection(notifications);
    if third.Err? {
      return Err(third.error);
    }
    var items := |readStates| + |groups| + |notifications|;
    var bytes := first.value + second.value + third.value;
    if items > MAX_PACKAGE_ITEMS || bytes > MAX_PACKAGE_BYTES {
      return Err(RequiredStateTooLarge);
    }
    var pages := PaginateSections(required);
    if pages.Err? {
      return Err(pages.error);
    }
    if |pages.value| > MAX_PAGES {
      return Err(RequiredStateTooLarge);
    }
    var choice, selectedNewest := SelectMessages(messages, Budget(MAX_PACKAGE_ITEMS - items, MAX_PACKAGE_BYTES - bytes, MAX_PAGES - |pages.value|));
    if choice.Err? {
      return Err(choice.error);
    }
    r := Ok(Selection(Package(readStates, groups, Reverse(selectedNewest), notifications), choice.value, Budget(items, bytes, |pages.value|)));
  }
}
