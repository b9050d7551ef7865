/** source/renderer/app/domains/News.js: collections of news built from filters and stable sorts. */
module NewsFeed {
  import opened Wrappers

  datatype NewsType = Incident | Alert | Announcement | Info | Update

  datatype News = News(
    id: nat,
    title: string,
    content: string,
    actionLabel: string,
    klarityVersion: string,
    platforms: set<string>,
    date: int,
    newsType: NewsType,
    read: bool)

  /** The platform, and the version ranges that the running version satisfies. */
  datatype Environment = Environment(platform: string, satisfied: set<string>)

  predicate IsShown(env: Environment, n: News) {
    && (n.klarityVersion == "" || n.klarityVersion in env.satisfied)
    && (env.platform == "browser" || env.platform in n.platforms)
    && n.newsType != Update
    && n.id != 0
    && n.title != ""
    && n.content != ""
    && n.actionLabel != ""
    && n.date != 0
  }

  function Shown(env: Environment): News -> bool {
    (n: News) => IsShown(env, n)
  }

  function Dated(date: int): News -> bool {
    (n: News) => n.date == date
  }

  predicate IsUpdate(n: News) { n.newsType == Update }
  predicate IsAlert(n: News) { n.newsType == Alert }
  predicate IsIncident(n: News) { n.newsType == Incident }
  predicate UnreadAnnouncement(n: News) { n.newsType == Announcement && !n.read }
  predicate UnreadInfo(n: News) { n.newsType == Info && !n.read }
  predicate IsRead(n: News) { n.read }
  predicate IsUnread(n: News) { !n.read }

  function Filter(items: seq<News>, p: News -> bool): seq<News> {
    if items == [] then []
    else if p(items[0]) then [items[0]] + Filter(items[1..], p)
    else Filter(items[1..], p)
  }

  datatype Order = Asc | Desc

  predicate Precedes(a: News, b: News, order: Order) {
    match order
    case Asc => a.date < b.date
    case Desc => a.date > b.date
  }

  function Insert(x: News, items: seq<News>, order: Order): seq<News> {
    if items == [] || !Precedes(items[0], x, order) then [x] + items
    else [items[0]] + Insert(x, items[1..], order)
  }

  /** lodash `orderBy(items, 'date', order)`. */
  function OrderBy(items: seq<News>, order: Order): seq<News> {
    if items == [] then [] else Insert(items[0], OrderBy(items[1..], order), order)
  }

  // The collection.

  datatype NewsCollection = NewsCollection(all: seq<News>, update: Option<News>)

  function Create(env: Environment, data: seq<News>): NewsCollection {
    var updates := Filter(data, IsUpdate);
    NewsCollection(OrderBy(Filter(data, Shown(env)), Desc), if updates == [] then None else Some(updates[0]))
  }

  function UnreadOf(c: NewsCollection): seq<News> {
    OrderBy(Filter(c.all, IsUnread), Asc)
  }

  function ReadOf(c: NewsCollection): seq<News> {
    OrderBy(Filter(c.all, IsRead), Asc)
  }

  function AlertsOf(env: Environment, c: NewsCollection): NewsCollection {
    Create(env, OrderBy(Filter(c.all, IsAlert), Asc))
  }

  function AnnouncementsOf(env: Environment, c: NewsCollection): NewsCollection {
    Create(env, Filter(c.all, UnreadAnnouncement))
  }

  function InfosOf(env: Environment, c: NewsCollection): NewsCollection {
    Create(env, Filter(c.all, UnreadInfo))
  }

  function IncidentOf(c: NewsCollection): Option<News> {
    var incidents := Filter(c.all, IsIncident);
    if incidents == [] then None else Some(incidents[|incidents| - 1])
  }

  // Stable sorting, characterized: sorted, and the items of each date keep their order.

  ghost predicate Sorted(items: seq<News>, order: Order) {
    forall i, j :: 0 <= i < j < |items| ==> !Precedes(items[j], items[i], order)
  }

  function OnDate(items: seq<News>, date: int): seq<News> {
    Filter(items, Dated(date))
  }

  lemma {:induction false} InsertAdds(x: News, items: seq<News>, order: Order)
    ensures multiset(Insert(x, items, order)) == multiset{x} + multiset(items)
  {
    if items != [] && Precedes(items[0], x, order) {
      InsertAdds(x, items[1..], order);
      assert items == [items[0]] + items[1..];
    }
  }

  lemma {:induction false} InsertSorts(x: News, items: seq<News>, order: Order)
    requires Sorted(items, order)
    ensures Sorted(Insert(x, items, order), order)
  {
    if items != [] && Precedes(items[0], x, order) {
      var rest := Insert(x, items[1..], order);
      InsertSorts(x, items[1..], order);
      InsertAdds(x, items[1..], order);
      forall k | 0 <= k < |rest| ensures !Precedes(rest[k], items[0], order) {
        assert rest[k] in multiset(rest);
        assert rest[k] == x || rest[k] in items[1..];
      }
    } else {
      assert forall k :: 0 < k < |items| ==> !Precedes(items[k], items[0], order);
    }
  }

  lemma FilterCons(x: News, items: seq<News>, p: News -> bool)
    ensures Filter([x] + items, p) == (if p(x) then [x] else []) + Filter(items, p)
  {
    assert ([x] + items)[1..] == items;
  }

  lemma {:induction false} InsertKeepsDates(x: News, items: seq<News>, order: Order, date: int)
    ensures OnDate(Insert(x, items, order), date) == OnDate([x] + items, date)
  {
    FilterCons(x, items, Dated(date));
    if items != [] && Precedes(items[0], x, order) {
      InsertKeepsDates(x, items[1..], order, date);
      FilterCons(x, items[1..], Dated(date));
      FilterCons(items[0], Insert(x, items[1..], order), Dated(date));
    }
  }

  lemma {:induction false} OrderBySorts(items: seq<News>, order: Order)
    ensures Sorted(OrderBy(items, order), order)
    ensures multiset(OrderBy(items, order)) == multiset(items)
  {
    if items != [] {
      OrderBySorts(items[1..], order);
      InsertSorts(items[0], OrderBy(items[1..], order), order);
      InsertAdds(items[0], OrderBy(items[1..], order), order);
      assert items == [items[0]] + items[1..];
    }
  }

  lemma {:induction false} OrderByIsStable(items: seq<News>, order: Order, date: int)
    ensures OnDate(OrderBy(items, order), date) == OnDate(items, date)
  {
    if items != [] {
      var rest := OrderBy(items[1..], order);
      OrderByIsStable(items[1..], order, date);
      InsertKeepsDates(items[0], rest, order, date);
      assert ([items[0]] + rest)[1..] == rest;
    }
  }

  lemma {:induction false} FilterMember(items: seq<News>, p: News -> bool, n: News)
    ensures n in Filter(items, p) <==> n in items && p(n)
  {
    if items != [] {
      FilterMember(items[1..], p, n);
      assert n in items <==> n == items[0] || n in items[1..];
    }
  }

  lemma SameMembers(a: seq<News>, b: seq<News>, n: News)
    requires forall date :: OnDate(a, date) == OnDate(b, date)
    ensures n in a <==> n in b
  {
    FilterMember(a, Dated(n.date), n);
    FilterMember(b, Dated(n.date), n);
    assert OnDate(a, n.date) == OnDate(b, n.date);
  }

  /** Two sequences sorted the same way that agree date by date are the same sequence. */
  lemma {:induction false} SortedIsUnique(a: seq<News>, b: seq<News>, order: Order)
    requires Sorted(a, order) && Sorted(b, order)
    requires forall date :: OnDate(a, date) == OnDate(b, date)
    ensures a == b
  {
    if a == [] {
      if b != [] {
        SameMembers(a, b, b[0]);
      }
    } else if b == [] {
      SameMembers(a, b, a[0]);
    } else {
      SameFirstDate(a, b, order);
      var d := a[0].date;
      assert OnDate(a, d)[0] == a[0] && OnDate(b, d)[0] == b[0];
      assert OnDate(a, d) == OnDate(b, d);
      forall date ensures OnDate(a[1..], date) == OnDate(b[1..], date) {
        assert OnDate(a, date) == OnDate(b, date);
        assert OnDate(a, date) == if date == d then [a[0]] + OnDate(a[1..], date) else OnDate(a[1..], date);
        assert OnDate(b, date) == if date == d then [b[0]] + OnDate(b[1..], date) else OnDate(b[1..], date);
        assert date == d ==> OnDate(a, date)[1..] == OnDate(a[1..], date);
        assert date == d ==> OnDate(b, date)[1..] == OnDate(b[1..], date);
      }
      SortedIsUnique(a[1..], b[1..], order);
    }
  }

  lemma SameFirstDate(a: seq<News>, b: seq<News>, order: Order)
    requires a != [] && b != [] && Sorted(a, order) && Sorted(b, order)
    requires forall date :: OnDate(a, date) == OnDate(b, date)
    ensures a[0].date == b[0].date
  {
    SameMembers(a, b, a[0]);
    SameMembers(a, b, b[0]);
    assert a[0] in b && b[0] in a;
    var i :| 0 <= i < |b| && b[i] == a[0];
    var j :| 0 <= j < |a| && a[j] == b[0];
    assert !Precedes(b[i], b[0], order) && !Precedes(a[j], a[0], order);
  }

  lemma SortedIsFixed(items: seq<News>, order: Order)
    requires Sorted(items, order)
    ensures OrderBy(items, order) == items
  {
    OrderBySorts(items, order);
    forall date ensures OnDate(OrderBy(items, order), date) == OnDate(items, date) {
      OrderByIsStable(items, order, date);
    }
    SortedIsUnique(OrderBy(items, order), items, order);
  }

  /** Sorting one way and then the other is sorting the second way, ties included. */
  lemma ResortingForgets(items: seq<News>, first: Order, second: Order)
    ensures OrderBy(OrderBy(items, first), second) == OrderBy(items, second)
  {
    var a, b := OrderBy(OrderBy(items, first), second), OrderBy(items, second);
    OrderBySorts(OrderBy(items, first), second);
    OrderBySorts(items, second);
    forall date ensures OnDate(a, date) == OnDate(b, date) {
      OrderByIsStable(OrderBy(items, first), second, date);
      OrderByIsStable(items, first, date);
      OrderByIsStable(items, second, date);
    }
    SortedIsUnique(a, b, second);
  }

  lemma {:induction false} FilterKeepsAll(items: seq<News>, p: News -> bool)
    requires forall n :: n in items ==> p(n)
    ensures Filter(items, p) == items
  {
    if items != [] {
      assert items[0] in items;
      FilterKeepsAll(items[1..], p);
    }
  }

  lemma {:induction false} FilterSorted(items: seq<News>, p: News -> bool, order: Order)
    requires Sorted(items, order)
    ensures Sorted(Filter(items, p), order)
  {
    if items != [] {
      FilterSorted(items[1..], p, order);
      var rest := Filter(items[1..], p);
      forall k | 0 <= k < |rest| ensures !Precedes(rest[k], items[0], order) {
        FilterMember(items[1..], p, rest[k]);
        var j :| 0 <= j < |items[1..]| && items[1..][j] == rest[k];
        assert items[j + 1] == rest[k];
      }
    }
  }

  /** A collection made by `Create` is sorted from newest to oldest and holds shown news only. */
  ghost predicate WellBuilt(env: Environment, all: seq<News>) {
    Sorted(all, Desc) && forall n :: n in all ==> IsShown(env, n)
  }

  lemma CreateIsWellBuilt(env: Environment, data: seq<News>)
    ensures WellBuilt(env, Create(env, data).all)
    ensures forall n :: n in Create(env, data).all <==> n in data && IsShown(env, n)
  {
    var shown := Filter(data, Shown(env));
    OrderBySorts(shown, Desc);
    forall n ensures n in OrderBy(shown, Desc) <==> n in data && IsShown(env, n) {
      FilterMember(data, Shown(env), n);
      assert n in OrderBy(shown, Desc) <==> n in multiset(OrderBy(shown, Desc));
    }
  }

  /** What is shown, and which update is kept. */
  lemma CreateShowsExactly(env: Environment, data: seq<News>, n: News)
    ensures n in Create(env, data).all <==>
            && n in data
            && (n.klarityVersion == "" || n.klarityVersion in env.satisfied)
            && (env.platform == "browser" || env.platform in n.platforms)
            && n.newsType != Update
            && n.id != 0 && n.title != "" && n.content != "" && n.actionLabel != "" && n.date != 0
  {
    CreateIsWellBuilt(env, data);
  }

  lemma {:induction false} FirstOfFilter(items: seq<News>, p: News -> bool, i: nat)
    requires i < |items| && p(items[i]) && forall j :: 0 <= j < i ==> !p(items[j])
    ensures Filter(items, p) != [] && Filter(items, p)[0] == items[i]
  {
    if i > 0 {
      FirstOfFilter(items[1..], p, i - 1);
    }
  }

  predicate IsFirstUpdate(data: seq<News>, i: int)
    requires 0 <= i < |data|
  {
    data[i].newsType == Update && forall j :: 0 <= j < i ==> data[j].newsType != Update
  }

  /** The update kept is the first item of that type in the data, shown or not, if there is one. */
  lemma UpdateIsTheFirst(env: Environment, data: seq<News>)
    ensures Create(env, data).update == None <==> forall n <- data :: n.newsType != Update
    ensures forall i :: 0 <= i < |data| && IsFirstUpdate(data, i) ==> Create(env, data).update == Some(data[i])
  {
    var updates := Filter(data, IsUpdate);
    if updates != [] {
      FilterMember(data, IsUpdate, updates[0]);
    }
    forall n | n in data && n.newsType == Update
      ensures updates != []
    {
      FilterMember(data, IsUpdate, n);
    }
    forall i | 0 <= i < |data| && IsFirstUpdate(data, i)
      ensures updates != [] && updates[0] == data[i]
    {
      FirstOfFilter(data, IsUpdate, i);
    }
  }

  /** Re-creating a collection from part of a collection's own news, in any re-sorted form, keeps that part as it was. */
  lemma RebuildKeeps(env: Environment, part: seq<News>, order: Order)
    requires WellBuilt(env, part)
    ensures Create(env, part).all == part
    ensures Create(env, OrderBy(part, order)).all == part
  {
    FilterKeepsAll(part, Shown(env));
    SortedIsFixed(part, Desc);
    var resorted := OrderBy(part, order);
    OrderBySorts(part, order);
    forall n | n in resorted ensures IsShown(env, n) {
      assert n in multiset(resorted);
    }
    FilterKeepsAll(resorted, Shown(env));
    ResortingForgets(part, order, Desc);
  }

  lemma PartIsWellBuilt(env: Environment, all: seq<News>, p: News -> bool)
    requires WellBuilt(env, all)
    ensures WellBuilt(env, Filter(all, p))
  {
    FilterSorted(all, p, Desc);
    forall n | n in Filter(all, p) ensures IsShown(env, n) {
      FilterMember(all, p, n);
    }
  }

  /** For any news data: rebuilding a collection from its own news changes nothing; the alerts, although sorted
      ascending and then descending again, are exactly the collection's alerts in the collection's own order;
      announcements and infos are exactly the unread ones, in that order, so none of theirs is read. */
  lemma DerivedCollectionsAreSubsequences(env: Environment, data: seq<News>)
    ensures var c := Create(env, data);
            && Create(env, c.all).all == c.all
            && AlertsOf(env, c).all == Filter(c.all, IsAlert)
            && AnnouncementsOf(env, c).all == Filter(c.all, UnreadAnnouncement)
            && InfosOf(env, c).all == Filter(c.all, UnreadInfo)
            && ReadOf(AnnouncementsOf(env, c)) == [] && ReadOf(InfosOf(env, c)) == []
  {
    var c := Create(env, data);
    CreateIsWellBuilt(env, data);
    RebuildKeeps(env, c.all, Asc);
    PartIsWellBuilt(env, c.all, IsAlert);
    RebuildKeeps(env, Filter(c.all, IsAlert), Asc);
    PartIsWellBuilt(env, c.all, UnreadAnnouncement);
    RebuildKeeps(env, Filter(c.all, UnreadAnnouncement), Asc);
    PartIsWellBuilt(env, c.all, UnreadInfo);
    RebuildKeeps(env, Filter(c.all, UnreadInfo), Asc);
    NothingRead(c.all, UnreadAnnouncement);
    NothingRead(c.all, UnreadInfo);
  }

  lemma NothingRead(all: seq<News>, p: News -> bool)
    requires forall n :: p(n) ==> !n.read
    ensures Filter(Filter(all, p), IsRead) == []
  {
    var part := Filter(Filter(all, p), IsRead);
    if part != [] {
      FilterMember(Filter(all, p), IsRead, part[0]);
      FilterMember(all, p, part[0]);
    }
  }

  lemma {:induction false} FiltersPartition(items: seq<News>, p: News -> bool, q: News -> bool)
    requires forall n :: q(n) == !p(n)
    ensures multiset(Filter(items, p)) + multiset(Filter(items, q)) == multiset(items)
  {
    if items != [] {
      FiltersPartition(items[1..], p, q);
      assert items == [items[0]] + items[1..];
    }
  }

  /** The read and the unread news of any collection are, together, exactly its news, each sorted from oldest to
      newest. */
  lemma ReadAndUnreadPartition(c: NewsCollection)
    ensures multiset(ReadOf(c)) + multiset(UnreadOf(c)) == multiset(c.all)
    ensures Sorted(ReadOf(c), Asc) && Sorted(UnreadOf(c), Asc)
    ensures forall n :: n in ReadOf(c) <==> n in c.all && n.read
    ensures forall n :: n in UnreadOf(c) <==> n in c.all && !n.read
  {
    var read, unread := Filter(c.all, IsRead), Filter(c.all, IsUnread);
    OrderBySorts(read, Asc);
    OrderBySorts(unread, Asc);
    FiltersPartition(c.all, IsRead, IsUnread);
    forall n ensures (n in ReadOf(c) <==> n in c.all && n.read) && (n in UnreadOf(c) <==> n in c.all && !n.read) {
      FilterMember(c.all, IsRead, n);
      FilterMember(c.all, IsUnread, n);
      assert n in ReadOf(c) <==> n in multiset(ReadOf(c));
      assert n in UnreadOf(c) <==> n in multiset(UnreadOf(c));
    }
  }

  /** Which news the derived collections hold. */
  lemma DerivedCollectionsHold(env: Environment, data: seq<News>, n: News)
    ensures var c := Create(env, data);
            && (n in AlertsOf(env, c).all <==> n in c.all && n.newsType == Alert)
            && (n in AnnouncementsOf(env, c).all <==> n in c.all && n.newsType == Announcement && !n.read)
            && (n in InfosOf(env, c).all <==> n in c.all && n.newsType == Info && !n.read)
            && (IncidentOf(c) == None <==> forall m <- c.all :: m.newsType != Incident)
            && (IncidentOf(c) == Some(n) ==> n in c.all && n.newsType == Incident)
  {
    var c := Create(env, data);
    DerivedCollectionsAreSubsequences(env, data);
    FilterMember(c.all, IsAlert, n);
    FilterMember(c.all, UnreadAnnouncement, n);
    FilterMember(c.all, UnreadInfo, n);
    var incidents := Filter(c.all, IsIncident);
    forall m
      ensures m in incidents <==> m in c.all && m.newsType == Incident
    {
      FilterMember(c.all, IsIncident, m);
    }
    if incidents != [] {
      assert incidents[|incidents| - 1] in incidents;
    }
  }

  predicate OneDate(items: seq<News>) {
    forall m, n :: m in items && n in items ==> m.date == n.date
  }

  lemma SortedBothWaysIff(items: seq<News>)
    ensures Sorted(OrderBy(items, Asc), Desc) <==> OneDate(items)
  {
    var sorted := OrderBy(items, Asc);
    OrderBySorts(items, Asc);
    if Sorted(sorted, Desc) {
      forall m, n | m in items && n in items
        ensures m.date == n.date
      {
        assert m in multiset(sorted) && n in multiset(sorted);
        var i :| 0 <= i < |sorted| && sorted[i] == m;
        var j :| 0 <= j < |sorted| && sorted[j] == n;
        assert i < j ==> !Precedes(sorted[j], sorted[i], Asc) && !Precedes(sorted[j], sorted[i], Desc);
        assert j < i ==> !Precedes(sorted[i], sorted[j], Asc) && !Precedes(sorted[i], sorted[j], Desc);
      }
    }
    if OneDate(items) {
      forall i, j | 0 <= i < j < |sorted|
        ensures !Precedes(sorted[j], sorted[i], Desc)
      {
        assert sorted[i] in multiset(items) && sorted[j] in multiset(items);
      }
    }
  }

  /** The announced order, newest to oldest, is what one gets exactly when all read, or all unread, news have one
      date. */
  lemma AnnouncedOrderIff(c: NewsCollection)
    ensures Sorted(ReadOf(c), Desc) <==> OneDate(Filter(c.all, IsRead))
    ensures Sorted(UnreadOf(c), Desc) <==> OneDate(Filter(c.all, IsUnread))
  {
    SortedBothWaysIff(Filter(c.all, IsRead));
    SortedBothWaysIff(Filter(c.all, IsUnread));
  }

  /** The one incident that is shown is an oldest one. */
  lemma IncidentIsOldest(env: Environment, data: seq<News>, n: News)
    requires var c := Create(env, data); n in c.all && n.newsType == Incident
    ensures var c := Create(env, data);
            IncidentOf(c).Some? && IncidentOf(c).value in c.all && IncidentOf(c).value.date <= n.date
  {
    var c := Create(env, data);
    var incidents := Filter(c.all, IsIncident);
    CreateIsWellBuilt(env, data);
    FilterSorted(c.all, IsIncident, Desc);
    FilterMember(c.all, IsIncident, n);
    FilterMember(c.all, IsIncident, incidents[|incidents| - 1]);
    var i :| 0 <= i < |incidents| && incidents[i] == n;
    assert i < |incidents| - 1 ==> !Precedes(incidents[|incidents| - 1], incidents[i], Desc);
  }
}
