/** The read-side scans of the three admin handlers over `requests/`:
    `admin_stats`, `admin_top_categories` and `admin_top_users`. Each visits
    the partitions in the fixed order gibberish, offers, personal and, inside
    a partition, the names `os.listdir` returns in an unspecified order. */
module Aggregate {
  import opened Wrappers
  import opened Classifier
  import opened Ledger
  import opened Ranking

  /** The partitions in the order the handlers visit them. */
  const ScanOrder: seq<Category> := [Gibberish, Offers, Personal]

  /** The position of a partition directory in `ScanOrder`, 3 for any other
      directory. */
  function DirIndex(dir: string): nat {
    if dir == "gibberish" then 0
    else if dir == "offers" then 1
    else if dir == "personal" then 2
    else 3
  }

  /** Each category sits at the position of its directory in `ScanOrder`. */
  lemma ScanOrderPositions()
    ensures forall c: Category :: DirIndex(c.Name()) < |ScanOrder| && ScanOrder[DirIndex(c.Name())] == c
    ensures forall i :: 0 <= i < |ScanOrder| ==> DirIndex(ScanOrder[i].Name()) == i
  {
  }

  /** `os.listdir("requests/<dir>")`: every file name of the directory once,
      in no particular order (no names at all when the directory does not
      exist). */
  method ListDir(files: Store, dir: string) returns (names: seq<string>)
    ensures forall n :: n in names <==> Path(dir, n) in files
    ensures forall i, j :: 0 <= i < j < |names| ==> names[i] != names[j]
  {
    var todo := set k | k in files.Keys && k.dir == dir;
    names := [];
    while todo != {}
      invariant forall k :: k in todo ==> k in files && k.dir == dir
      invariant forall n :: n in names <==> Path(dir, n) in files && Path(dir, n) !in todo
      invariant forall i, j :: 0 <= i < j < |names| ==> names[i] != names[j]
      decreases |todo|
    {
      var k :| k in todo;
      names := names + [k.name];
      todo := todo - {k};
    }
  }

  /** The `.json` files of the first `i` partitions of `ScanOrder`. */
  ghost function ScannedUpTo(files: Store, i: nat): (r: set<Path>)
    requires i <= |ScanOrder|
    ensures forall k :: k in r ==> k in files && IsJsonName(k.name) && DirIndex(k.dir) < i
  {
    if i == 0 then {} else ScannedUpTo(files, i - 1) + Scan(files, ScanOrder[i - 1])
  }

  /** Every file an admin scan visits. */
  ghost function Scanned(files: Store): set<Path> {
    ScannedUpTo(files, |ScanOrder|)
  }

  lemma ScannedIsUnion(files: Store)
    ensures Scanned(files) == Scan(files, Gibberish) + Scan(files, Offers) + Scan(files, Personal)
  {
    assert ScannedUpTo(files, 1) == Scan(files, Gibberish);
    assert ScannedUpTo(files, 2) == Scan(files, Gibberish) + Scan(files, Offers);
  }

  /** Every partition's files are among the files scanned. */
  lemma ScanIsScanned(files: Store, c: Category)
    ensures Scan(files, c) <= Scanned(files)
  {
    ScannedIsUnion(files);
  }

  /** The totals `admin_stats` reports. */
  datatype Stats = Stats(total: nat, counts: map<Category, nat>)

  /** The inner loop of `admin_stats` over one partition: counts its
      `.json` files, loading each one; the first that does not parse aborts
      the scan (`None`). */
  method CountLoaded(files: Store, c: Category) returns (n: Option<nat>)
    ensures n.None? <==> exists k :: k in Scan(files, c) && files[k].Unparsable?
    ensures n.Some? ==> n.value == |Scan(files, c)|
  {
    var names := ListDir(files, c.Name());
    var count := 0;
    ghost var seen: set<Path> := {};
    for j := 0 to |names|
      invariant seen <= Scan(files, c)
      invariant forall n :: n in names[..j] && IsJsonName(n) ==> Path(c.Name(), n) in seen
      invariant forall k :: k in seen ==> k.name in names[..j]
      invariant forall k :: k in seen ==> files[k].Parsed?
      invariant count == |seen|
    {
      var name := names[j];
      if IsJsonName(name) {
        var path := Path(c.Name(), name);
        if files[path].Unparsable? {
          return None;
        }
        assert path !in seen;
        count := count + 1;
        seen := seen + {path};
      }
    }
    assert seen == Scan(files, c) by {
      forall k | k in Scan(files, c) ensures k in seen {
        assert k == Path(c.Name(), k.name) && k.name in names[..|names|];
      }
    }
    n := Some(count);
  }

  /** Some scanned `.json` file does not parse: `admin_stats` raises. */
  ghost predicate HasUnparsable(files: Store) {
    exists k :: k in Scanned(files) && files[k].Unparsable?
  }

  /** The report `admin_stats` owes: each of the three categories with its
      number of `.json` files (0 for a missing partition), and their sum. */
  ghost predicate IsStatsOf(files: Store, s: Stats) {
    && s.counts.Keys == {Gibberish, Offers, Personal}
    && (forall c :: c in s.counts ==> s.counts[c] == |Scan(files, c)|)
    && s.total == |Scan(files, Gibberish)| + |Scan(files, Offers)| + |Scan(files, Personal)|
  }

  /** `admin_stats`: counts the `.json` files per partition (0 for a
      partition that is missing) and in all; the total is the sum of the
      three counts. Each counted file is also loaded without a guard, so a
      file that does not parse aborts the handler: `None`. */
  method AdminStats(files: Store) returns (r: Option<Stats>)
    ensures r.None? <==> HasUnparsable(files)
    ensures r.Some? ==> IsStatsOf(files, r.value)
  {
    ScanOrderPositions();
    var total := 0;
    var counts := map[Gibberish := 0, Offers := 0, Personal := 0];
    for i := 0 to |ScanOrder|
      invariant counts.Keys == {Gibberish, Offers, Personal}
      invariant forall d :: d in counts ==> counts[d] == if DirIndex(d.Name()) < i then |Scan(files, d)| else 0
      invariant total == counts[Gibberish] + counts[Offers] + counts[Personal]
      invariant forall k :: k in ScannedUpTo(files, i) ==> files[k].Parsed?
    {
      var c := ScanOrder[i];
      var n := CountLoaded(files, c);
      if n.None? {
        ghost var k :| k in Scan(files, c) && files[k].Unparsable?;
        ScanIsScanned(files, c);
        assert k in Scanned(files);
        return None;
      }
      total := total + n.value;
      counts := counts[c := n.value];
    }
    r := Some(Stats(total, counts));
  }

  /** `Counter(all_categories)` as `most_common` sees it: one entry per
      category with at least one `.json` file, in the order in which the
      categories first occur in the scan. */
  ghost function CategoryCountsUpTo(files: Store, i: nat): (s: seq<(Category, nat)>)
    requires i <= |ScanOrder|
  {
    if i == 0 then []
    else
      var c := ScanOrder[i - 1];
      CategoryCountsUpTo(files, i - 1) + (if |Scan(files, c)| > 0 then [(c, |Scan(files, c)|)] else [])
  }

  ghost function CategoryCounts(files: Store): seq<(Category, nat)> {
    CategoryCountsUpTo(files, |ScanOrder|)
  }

  /** After the first `i` partitions, each category visited that has a file
      appears once, with its number of files, and no other category does. */
  lemma {:induction false} CategoryCountsUpToFacts(files: Store, i: nat)
    requires i <= |ScanOrder|
    ensures DistinctKeys(CategoryCountsUpTo(files, i))
    ensures forall p: (Category, nat) :: p in CategoryCountsUpTo(files, i) ==> DirIndex(p.0.Name()) < i && p.1 == |Scan(files, p.0)| > 0
    ensures forall c: Category :: DirIndex(c.Name()) < i && |Scan(files, c)| > 0 ==> (c, |Scan(files, c)|) in CategoryCountsUpTo(files, i)
    ensures |CategoryCountsUpTo(files, i)| <= i
  {
    ScanOrderPositions();
    if i > 0 {
      CategoryCountsUpToFacts(files, i - 1);
      var prev := CategoryCountsUpTo(files, i - 1);
      var s := CategoryCountsUpTo(files, i);
      var c := ScanOrder[i - 1];
      if |Scan(files, c)| > 0 {
        assert s == prev + [(c, |Scan(files, c)|)];
        forall j, l | 0 <= j < l < |s| ensures s[j].0 != s[l].0 {
          if l == |s| - 1 {
            assert s[j] in prev;
          }
        }
      } else {
        assert s == prev;
      }
    }
  }

  /** Each category with a file appears once, with its number of files. */
  lemma CategoryCountsFacts(files: Store)
    ensures DistinctKeys(CategoryCounts(files))
    ensures forall p :: p in CategoryCounts(files) ==> p.1 == |Scan(files, p.0)| > 0
    ensures forall c :: |Scan(files, c)| > 0 ==> (c, |Scan(files, c)|) in CategoryCounts(files)
    ensures |CategoryCounts(files)| <= 3
  {
    ScanOrderPositions();
    CategoryCountsUpToFacts(files, |ScanOrder|);
  }

  /** The loop of `admin_top_categories`: `all_categories` gets one entry
      per `.json` file, naming the partition it was found in. */
  method CollectCategories(files: Store) returns (all: seq<Category>)
    ensures forall c :: multiset(all)[c] == |Scan(files, c)|
  {
    ScanOrderPositions();
    all := [];
    for i := 0 to |ScanOrder|
      invariant forall d :: multiset(all)[d] == if DirIndex(d.Name()) < i then |Scan(files, d)| else 0
    {
      all := AppendFound(files, ScanOrder[i], all);
    }
  }

  /** The inner loop of `admin_top_categories` over partition `c`: appends
      `c` once per `.json` file found there. */
  method AppendFound(files: Store, c: Category, all: seq<Category>) returns (all': seq<Category>)
    ensures forall d :: multiset(all')[d] == multiset(all)[d] + (if d == c then |Scan(files, c)| else 0)
  {
    var names := ListDir(files, c.Name());
    all' := all;
    ghost var seen: set<Path> := {};
    for j := 0 to |names|
      invariant seen <= Scan(files, c)
      invariant forall n :: n in names[..j] && IsJsonName(n) ==> Path(c.Name(), n) in seen
      invariant forall k :: k in seen ==> k.name in names[..j]
      invariant forall d :: multiset(all')[d] == multiset(all)[d] + (if d == c then |seen| else 0)
    {
      var name := names[j];
      if IsJsonName(name) {
        var path := Path(c.Name(), name);
        assert path !in seen;
        all' := all' + [c];
        seen := seen + {path};
      }
    }
    assert seen == Scan(files, c) by {
      forall k | k in Scan(files, c) ensures k in seen {
        assert k == Path(c.Name(), k.name) && k.name in names[..|names|];
      }
    }
  }

  /** The answer `admin_top_categories` owes: `most_common(3)` of the
      per-category counts, which is at most three entries, largest first,
      each category once with its number of files, and every category that
      has a file. */
  ghost predicate IsTopCategoriesOf(files: Store, top: seq<(Category, nat)>) {
    && top == Top(CategoryCounts(files), 3)
    && |top| <= 3 && SortedDesc(top) && DistinctKeys(top)
    && (forall i :: 0 <= i < |top| ==> top[i].1 == |Scan(files, top[i].0)| > 0)
    && (forall c :: |Scan(files, c)| > 0 ==> exists i :: 0 <= i < |top| && top[i].0 == c)
  }

  /** The three most common categories are exactly the categories that
      have files, each with its number of files, largest first. */
  lemma TopCategoriesFacts(files: Store)
    ensures IsTopCategoriesOf(files, Top(CategoryCounts(files), 3))
  {
    var items := CategoryCounts(files);
    var top := Top(items, 3);
    CategoryCountsFacts(files);
    TopIsTop(items, 3);
    forall i | 0 <= i < |top| ensures top[i].1 == |Scan(files, top[i].0)| > 0 {
      assert top[i] in top;
    }
    forall c | |Scan(files, c)| > 0 ensures exists i :: 0 <= i < |top| && top[i].0 == c {
      var p := (c, |Scan(files, c)|);
      assert p in multiset(items);
      assert p in multiset(top);
    }
  }

  /** `admin_top_categories`: `Counter(all_categories).most_common(3)`, the
      categories that have files, ranked by their number of files, ties in
      scan order. */
  method AdminTopCategories(files: Store) returns (top: seq<(Category, nat)>)
    ensures IsTopCategoriesOf(files, top)
  {
    var all := CollectCategories(files);
    var items: seq<(Category, nat)> := [];
    for i := 0 to |ScanOrder|
      invariant items == CategoryCountsUpTo(files, i)
    {
      var c := ScanOrder[i];
      var n := multiset(all)[c];
      if n > 0 {
        items := items + [(c, n)];
      }
    }
    top := Top(items, 3);
    TopCategoriesFacts(files);
  }

  /** The sender recorded in a file: the `user_id` entry of a decoded JSON
      object, whatever its type; nothing for a file that does not parse, a
      document that is not an object, or an object without the entry. */
  function UserOf(d: FileData): Option<Json> {
    match d
    case Parsed(JObject(f)) => if "user_id" in f then Some(f["user_id"]) else None
    case _ => None
  }

  /** Whether Python can use the value as a dictionary key. */
  predicate Hashable(j: Json) {
    !j.JList? && !j.JObject?
  }

  /** The senders recorded in the files `seen`. */
  ghost function SendersIn(files: Store, seen: set<Path>): set<Json>
    requires seen <= files.Keys
  {
    set k | k in seen && UserOf(files[k]).Some? :: UserOf(files[k]).value
  }

  /** The files among `seen` that record sender `u`. */
  ghost function RecordsOf(files: Store, seen: set<Path>, u: Json): set<Path>
    requires seen <= files.Keys
  {
    set k | k in seen && UserOf(files[k]) == Some(u)
  }

  ghost function Senders(files: Store): set<Json> {
    SendersIn(files, Scanned(files))
  }

  /** The number of scanned files that record sender `u`. */
  ghost function RequestsOf(files: Store, u: Json): nat {
    |RecordsOf(files, Scanned(files), u)|
  }

  /** Visiting file `k` adds its sender, if any, to the senders seen and
      one record to that sender's records, and no record to anyone else's. */
  lemma AddSeen(files: Store, seen: set<Path>, k: Path)
    requires seen <= files.Keys && k in files && k !in seen
    ensures SendersIn(files, seen + {k}) ==
      SendersIn(files, seen) + (if UserOf(files[k]).Some? then {UserOf(files[k]).value} else {})
    ensures forall u :: UserOf(files[k]) != Some(u) ==> RecordsOf(files, seen + {k}, u) == RecordsOf(files, seen, u)
    ensures forall u :: UserOf(files[k]) == Some(u) ==>
      |RecordsOf(files, seen + {k}, u)| == |RecordsOf(files, seen, u)| + 1
  {
    forall u | UserOf(files[k]) == Some(u)
      ensures |RecordsOf(files, seen + {k}, u)| == |RecordsOf(files, seen, u)| + 1
    {
      assert RecordsOf(files, seen + {k}, u) == RecordsOf(files, seen, u) + {k};
    }
  }

  /** A sender with records among the files seen is one of the senders seen. */
  lemma SenderOfRecords(files: Store, seen: set<Path>, u: Json)
    requires seen <= files.Keys
    ensures RecordsOf(files, seen, u) != {} ==> u in SendersIn(files, seen)
  {
    if RecordsOf(files, seen, u) != {} {
      var k :| k in RecordsOf(files, seen, u);
      assert UserOf(files[k]).value == u;
    }
  }

  lemma {:induction false} DistinctSeqCard<T>(s: seq<T>)
    requires forall i, j :: 0 <= i < j < |s| ==> s[i] != s[j]
    ensures |set x | x in s| == |s|
  {
    if s != [] {
      var last := s[|s| - 1];
      var init := s[..|s| - 1];
      DistinctSeqCard(init);
      assert (set x | x in s) == (set x | x in init) + {last};
    }
  }

  /** The state of the `user_requests` dictionary after visiting the files
      `seen`: one key per sender, inserted in first-seen order, mapped to
      that sender's number of files. */
  ghost predicate TalliesSeen(files: Store, seen: set<Path>, acc: map<Json, nat>, order: seq<Json>)
    requires seen <= files.Keys
  {
    && acc.Keys == SendersIn(files, seen)
    && (forall u :: u in acc ==> acc[u] == |RecordsOf(files, seen, u)|)
    && (forall u :: u in order <==> u in acc)
    && (forall i, j :: 0 <= i < j < |order| ==> order[i] != order[j])
    && (forall k :: k in seen && UserOf(files[k]).Some? ==> Hashable(UserOf(files[k]).value))
  }

  /** `user_requests[u] += 1` on a `defaultdict(int)`: a new key goes to the
      end of the insertion order. */
  function Bump(acc: map<Json, nat>, order: seq<Json>, u: Json): (map<Json, nat>, seq<Json>) {
    if u in acc then (acc[u := acc[u] + 1], order) else (acc[u := 1], order + [u])
  }

  /** Visiting a file that records no sender leaves the tallies right. */
  lemma TallyStepNoSender(files: Store, seen: set<Path>, acc: map<Json, nat>, order: seq<Json>, k: Path)
    requires seen <= files.Keys && k in files && k !in seen
    requires TalliesSeen(files, seen, acc, order)
    requires UserOf(files[k]).None?
    ensures TalliesSeen(files, seen + {k}, acc, order)
  {
    AddSeen(files, seen, k);
  }

  /** Visiting a file of sender `u` and bumping `u`'s tally keeps the
      tallies right. */
  lemma TallyStepSender(files: Store, seen: set<Path>, acc: map<Json, nat>, order: seq<Json>, k: Path, u: Json)
    requires seen <= files.Keys && k in files && k !in seen
    requires TalliesSeen(files, seen, acc, order)
    requires UserOf(files[k]) == Some(u) && Hashable(u)
    ensures TalliesSeen(files, seen + {k}, Bump(acc, order, u).0, Bump(acc, order, u).1)
  {
    AddSeen(files, seen, k);
    var now := seen + {k};
    var (acc', order') := Bump(acc, order, u);
    if u !in acc {
      SenderOfRecords(files, seen, u);
      assert u !in order;
    }
    forall v | v in acc' ensures acc'[v] == |RecordsOf(files, now, v)| {
      if v != u {
        assert RecordsOf(files, now, v) == RecordsOf(files, seen, v);
      }
    }
  }

  /** The body of the loops of `admin_top_users` for one `.json` file: a
      file that does not parse, is not an object or has no `user_id` is
      skipped; otherwise the sender's tally goes up by one, unless the
      `user_id` is unhashable, on which the handler raises (`false`). */
  method TallyFile(files: Store, ghost now: set<Path>, acc: map<Json, nat>, order: seq<Json>, path: Path)
    returns (ok: bool, acc': map<Json, nat>, order': seq<Json>)
    requires now <= files.Keys && path in files && path !in now
    requires TalliesSeen(files, now, acc, order)
    ensures ok <==> (UserOf(files[path]).Some? ==> Hashable(UserOf(files[path]).value))
    ensures ok ==> TalliesSeen(files, now + {path}, acc', order')
  {
    var user := UserOf(files[path]);
    if user.None? {
      TallyStepNoSender(files, now, acc, order, path);
      return true, acc, order;
    }
    var u := user.value;
    if !Hashable(u) {
      return false, acc, order;
    }
    TallyStepSender(files, now, acc, order, path, u);
    acc', order' := Bump(acc, order, u).0, Bump(acc, order, u).1;
    ok := true;
  }

  /** The loops of `admin_top_users` over one partition: each `.json` file
      is loaded; one that does not parse is logged and skipped, an object
      with a `user_id` adds one to that sender's tally, and an unhashable
      `user_id` raises, aborting the handler (`false`). */
  method TallyPartition(files: Store, c: Category, ghost seen: set<Path>, acc: map<Json, nat>, order: seq<Json>)
    returns (ok: bool, acc': map<Json, nat>, order': seq<Json>)
    requires seen == ScannedUpTo(files, DirIndex(c.Name()))
    requires TalliesSeen(files, seen, acc, order)
    ensures ok <==> forall k :: k in Scan(files, c) && UserOf(files[k]).Some? ==> Hashable(UserOf(files[k]).value)
    ensures ok ==> TalliesSeen(files, ScannedUpTo(files, DirIndex(c.Name()) + 1), acc', order')
  {
    var names := ListDir(files, c.Name());
    ghost var i := DirIndex(c.Name());
    assert c == ScanOrder[i];
    ghost var now := seen;
    acc', order' := acc, order;
    for j := 0 to |names|
      invariant seen <= now <= seen + Scan(files, c)
      invariant forall n :: n in names[..j] && IsJsonName(n) ==> Path(c.Name(), n) in now
      invariant forall k :: k in now - seen ==> k.name in names[..j]
      invariant TalliesSeen(files, now, acc', order')
    {
      var name := names[j];
      if IsJsonName(name) {
        var path := Path(c.Name(), name);
        assert path !in now;
        var fileOk;
        fileOk, acc', order' := TallyFile(files, now, acc', order', path);
        if !fileOk {
          assert path in Scan(files, c);
          return false, acc', order';
        }
        now := now + {path};
      }
    }
    assert now == ScannedUpTo(files, i + 1) by {
      forall k | k in Scan(files, c) ensures k in now {
        assert k == Path(c.Name(), k.name) && k.name in names[..|names|];
      }
    }
    ok := true;
  }

  /** `user_requests.items()`: the tallies in insertion order. */
  function Items(acc: map<Json, nat>, order: seq<Json>): (items: seq<(Json, nat)>)
    requires forall u :: u in order ==> u in acc
    ensures |items| == |order|
    ensures forall j :: 0 <= j < |order| ==> items[j] == (order[j], acc[order[j]])
  {
    if order == [] then [] else Items(acc, order[..|order| - 1]) + [(order[|order| - 1], acc[order[|order| - 1]])]
  }

  /** The items list every tallied sender once, with its tally. */
  lemma ItemsFacts(acc: map<Json, nat>, order: seq<Json>)
    requires forall u :: u in order <==> u in acc
    requires forall i, j :: 0 <= i < j < |order| ==> order[i] != order[j]
    ensures DistinctKeys(Items(acc, order))
    ensures forall p :: p in Items(acc, order) ==> p.0 in acc && p.1 == acc[p.0]
    ensures forall u :: u in acc ==> (u, acc[u]) in Items(acc, order)
    ensures |Items(acc, order)| == |acc.Keys|
  {
    var items := Items(acc, order);
    forall u | u in acc ensures (u, acc[u]) in items {
      var j :| 0 <= j < |order| && order[j] == u;
      assert items[j] == (u, acc[u]);
    }
    assert (set u | u in order) == acc.Keys;
    DistinctSeqCard(order);
  }

  /** Ranking the tallies keeps five senders, or all of them when there are
      fewer, largest tally first, each sender once. */
  lemma TopTalliesShape(acc: map<Json, nat>, order: seq<Json>)
    requires forall u :: u in order <==> u in acc
    requires forall i, j :: 0 <= i < j < |order| ==> order[i] != order[j]
    ensures var top := Top(Items(acc, order), 5);
      |top| == Min(5, |acc.Keys|) && SortedDesc(top) && DistinctKeys(top)
  {
    ItemsFacts(acc, order);
    TopIsTop(Items(acc, order), 5);
  }

  /** Each sender kept comes with its tally. */
  lemma TopTalliesCounted(acc: map<Json, nat>, order: seq<Json>)
    requires forall u :: u in order <==> u in acc
    requires forall i, j :: 0 <= i < j < |order| ==> order[i] != order[j]
    ensures var top := Top(Items(acc, order), 5);
      forall i :: 0 <= i < |top| ==> top[i].0 in acc && top[i].1 == acc[top[i].0]
  {
    var items := Items(acc, order);
    var top := Top(items, 5);
    ItemsFacts(acc, order);
    TopFromInput(items, 5);
    forall i | 0 <= i < |top| ensures top[i].0 in acc && top[i].1 == acc[top[i].0] {
      assert top[i] in top;
    }
  }

  /** No sender left out of the ranking has a larger tally than a sender
      kept. */
  lemma TopTalliesDominate(acc: map<Json, nat>, order: seq<Json>)
    requires forall u :: u in order <==> u in acc
    requires forall i, j :: 0 <= i < j < |order| ==> order[i] != order[j]
    ensures var top := Top(Items(acc, order), 5);
      forall u, i :: u in acc && (forall j :: 0 <= j < |top| ==> top[j].0 != u) && 0 <= i < |top| ==> acc[u] <= top[i].1
  {
    var items := Items(acc, order);
    var top := Top(items, 5);
    ItemsFacts(acc, order);
    TopDominates(items, 5);
    forall u, i | u in acc && (forall j :: 0 <= j < |top| ==> top[j].0 != u) && 0 <= i < |top|
      ensures acc[u] <= top[i].1
    {
      var p := (u, acc[u]);
      assert p in items;
      assert p !in top by {
        forall j | 0 <= j < |top| ensures top[j] != p {
          assert top[j].0 != u;
        }
      }
    }
  }

  /** Some scanned record has a list or an object as `user_id`: the
      dictionary update of `admin_top_users` raises. */
  ghost predicate HasUnhashableSender(files: Store) {
    exists k :: k in Scanned(files) && UserOf(files[k]).Some? && !Hashable(UserOf(files[k]).value)
  }

  /** The answer `admin_top_users` owes: five senders, or all of them when
      there are fewer, largest number of records first, each sender once
      with its number of records, and no sender left out with more records
      than one kept. */
  ghost predicate IsTopUsersOf(files: Store, top: seq<(Json, nat)>) {
    && |top| == Min(5, |Senders(files)|)
    && SortedDesc(top) && DistinctKeys(top)
    && (forall i :: 0 <= i < |top| ==> top[i].0 in Senders(files) && top[i].1 == RequestsOf(files, top[i].0))
    && (forall u, i ::
          && u in Senders(files)
          && (forall j :: 0 <= j < |top| ==> top[j].0 != u)
          && 0 <= i < |top|
          ==> RequestsOf(files, u) <= top[i].1)
  }

  /** The five senders kept are the busiest ones, each with its number of
      records. */
  lemma TopUsersFacts(files: Store, acc: map<Json, nat>, order: seq<Json>)
    requires TalliesSeen(files, Scanned(files), acc, order)
    ensures IsTopUsersOf(files, Top(Items(acc, order), 5))
  {
    var top := Top(Items(acc, order), 5);
    assert acc.Keys == Senders(files);
    assert forall u :: u in acc ==> acc[u] == RequestsOf(files, u);
    TopTalliesShape(acc, order);
    TopTalliesCounted(acc, order);
    TopTalliesDominate(acc, order);
  }

  /** `admin_top_users`: tallies the sender of every scanned record and
      ranks the senders by their number of records, keeping five. `None`
      when some `user_id` is a list or an object, on which the handler
      raises. */
  method AdminTopUsers(files: Store) returns (r: Option<seq<(Json, nat)>>)
    ensures r.None? <==> HasUnhashableSender(files)
    ensures r.Some? ==> IsTopUsersOf(files, r.value)
  {
    ScanOrderPositions();
    var acc: map<Json, nat> := map[];
    var order: seq<Json> := [];
    for i := 0 to |ScanOrder|
      invariant TalliesSeen(files, ScannedUpTo(files, i), acc, order)
    {
      var c := ScanOrder[i];
      var ok;
      ok, acc, order := TallyPartition(files, c, ScannedUpTo(files, i), acc, order);
      if !ok {
        ghost var k :| k in Scan(files, c) && UserOf(files[k]).Some? && !Hashable(UserOf(files[k]).value);
        ScanIsScanned(files, c);
        assert k in Scanned(files);
        return None;
      }
    }
    var top := Top(Items(acc, order), 5);
    TopUsersFacts(files, acc, order);
    r := Some(top);
  }
}
